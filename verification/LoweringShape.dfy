/** What lowering keeps of the writer's state, the names it uses for labels, and how its
    type stack follows validation. */
module LoweringShape {
  import opened Ir
  import opened Wasm
  import opened Typing
  import opened CLang
  import opened Lowering

  // ----- the stacks keep their entries; only `used` marks are added -----

  ghost predicate Grown(w: Writer, w1: Writer) {
    && |w1.labels| == |w.labels|
    && |w1.tries| == |w.tries|
    && (forall i {:trigger w1.labels[i]} | 0 <= i < |w.labels| ::
          w1.labels[i] == w.labels[i].(used := w1.labels[i].used) && (w.labels[i].used ==> w1.labels[i].used))
    && (forall i {:trigger w1.tries[i]} | 0 <= i < |w.tries| ::
          w1.tries[i].name == w.tries[i].name && (w.tries[i].used ==> w1.tries[i].used))
    && (w1.sound ==> w.sound)
  }

  lemma GrownGoto(v: Var, w: Writer)
    ensures Grown(w, LowerGoto(v, w).1) && LowerGoto(v, w).1.ts == w.ts
  {}

  lemma {:induction false} GrownCases(vs: seq<Var>, d: Var, w: Writer)
    ensures Grown(w, LowerCases(vs, d, w).1) && LowerCases(vs, d, w).1.ts == w.ts
    decreases |vs|
  {
    if vs == [] {
      GrownGoto(d, w);
    } else {
      GrownGoto(vs[0], w);
      GrownCases(vs[1..], d, LowerGoto(vs[0], w).1);
    }
  }

  lemma GrownDelegate(v: Var, w: Writer)
    ensures Grown(w, LowerDelegate(v, w).1) && LowerDelegate(v, w).1.ts == w.ts
  {}

  /** Pushing a label, writing code and popping the label again. */
  lemma GrownScope(w: Writer, e: LabelEntry, w1: Writer, w2: Writer, w0: Writer, results: seq<Type>)
    requires w1.labels == w.labels + [e] && w1.tries == w.tries && w1.sound == w.sound
    requires Grown(w1, w2)
    ensures Grown(w, PopBlock(w2, w0, results))
  {
    var p := PopBlock(w2, w0, results);
    forall i | 0 <= i < |w.labels|
      ensures p.labels[i] == w.labels[i].(used := p.labels[i].used) && (w.labels[i].used ==> p.labels[i].used)
    {
      assert p.labels[i] == w2.labels[i] && w1.labels[i] == w.labels[i];
    }
    forall i | 0 <= i < |w.tries|
      ensures p.tries[i].name == w.tries[i].name && (w.tries[i].used ==> p.tries[i].used)
    {
      assert p.tries[i] == w2.tries[i];
    }
  }

  lemma {:induction false} GrownList(cfg: Config, es: seq<Expr>, w: Writer)
    ensures Grown(w, LowerList(cfg, es, w).1)
    decreases es, 0
  {
    if es != [] {
      GrownExpr(cfg, es[0], w);
      if !Ends(es[0]) { GrownList(cfg, es[1..], LowerExpr(cfg, es[0], w).1); }
    }
  }

  lemma {:induction false} GrownExpr(cfg: Config, e: Expr, w: Writer)
    ensures Grown(w, LowerExpr(cfg, e, w).1)
    decreases e, 2
  {
    hide LowerList, LowerBlock, LowerLoop, LowerIf, LowerTry, LowerCases, LowerInstr, BranchMoves, TopSlots, StackVar,
        ShapeOf;
    match e
    case Plain(i) =>
    case Br(v) => GrownGoto(v, w);
    case BrIf(v) => GrownGoto(v, w.(ts := DropN(w.ts, 1)));
    case BrTable(vs, d) => GrownCases(vs, d, w.(ts := DropN(w.ts, 1)));
    case Return =>
    case Unreachable =>
    case Throw(t) =>
    case Rethrow(v) =>
    case Block(l, d, body) => GrownBlock(cfg, l, d, body, w);
    case Loop(_, _, _) => GrownLoop(cfg, e, w);
    case If(_, _, _, _) => GrownIf(cfg, e, w);
    case Try(l, d, body, kind, catches, delegate) =>
      if kind == PlainTry { GrownBlock(cfg, l, d, body, w); } else { GrownTry(cfg, e, w); }
  }

  lemma {:induction false} GrownBlock(cfg: Config, l: string, d: BlockDecl, body: seq<Expr>, w: Writer)
    ensures Grown(w, LowerBlock(cfg, l, d, body, w).1)
    decreases body, 1
  {
    var w0 := w.(ts := DropN(w.ts, |d.sig.params|));
    var w1 := Enter(w0, Frame(l, d.sig.results), BlockKind, d.sig.params);
    GrownList(cfg, body, w1);
    GrownScope(w, w1.labels[|w.labels|], w1, LowerList(cfg, body, w1).1, w0, d.sig.results);
  }

  lemma {:induction false} GrownLoop(cfg: Config, e: Expr, w: Writer)
    requires e.Loop?
    ensures Grown(w, LowerLoop(cfg, e, w).1)
    decreases e, 1
  {
    var sig := e.decl.sig;
    var w0 := w.(ts := DropN(w.ts, |sig.params|));
    var w1 := Enter(w0, Frame(e.name, sig.params), LoopKind, sig.params);
    GrownList(cfg, e.body, w1);
    GrownScope(w, w1.labels[|w.labels|], w1, LowerList(cfg, e.body, w1).1, w0, sig.results);
  }

  lemma {:induction false} GrownIf(cfg: Config, e: Expr, w: Writer)
    requires e.If?
    ensures Grown(w, LowerIf(cfg, e, w).1)
    decreases e, 1
  {
    var sig := e.decl.sig;
    var w0 := w.(ts := DropN(DropN(w.ts, 1), |sig.params|));
    var w1 := Enter(w0, Frame(e.name, sig.results), IfKind, sig.params);
    GrownList(cfg, e.thn, w1);
    var w2 := LowerList(cfg, e.thn, w1).1;
    var w2' := ResetTs(w2, w0, sig.params);
    GrownList(cfg, e.els, w2');
    var w3 := if e.els == [] then w2 else LowerList(cfg, e.els, w2').1;
    GrownScope(w, w1.labels[|w.labels|], w1, w3, w0, sig.results);
  }

  lemma {:induction false} GrownTry(cfg: Config, e: Expr, w: Writer)
    requires e.Try?
    ensures Grown(w, LowerTry(cfg, e, w).1)
    decreases e, 1
  {
    var (l, sig) := (e.name, e.decl.sig);
    var w0 := w.(ts := DropN(w.ts, |sig.params|));
    var w1 := EnterTry(w0, Frame(l, sig.results), sig.params);
    GrownList(cfg, e.body, w1);
    var w2 := LowerList(cfg, e.body, w1).1;
    var w3 := BeginCatches(w2, w0);
    if e.kind == CatchTry {
      GrownCatches(cfg, e.catches, w0, PopTry(w3));
      GrownTryEnd(w, w1, PopTry(w3), LowerCatches(cfg, e.catches, w0, PopTry(w3)).1, w0, sig.results);
    } else {
      GrownDelegate(e.delegate, w3);
      var w4 := LowerDelegate(e.delegate, w3).1;
      GrownTryEnd(w, w1, PopTry(w4), PopTry(w4), w0, sig.results);
    }
  }

  /** Closing a try: its own label has changed kind, everything below is only marked. */
  lemma GrownTryEnd(w: Writer, w1: Writer, w3: Writer, w4: Writer, w0: Writer, results: seq<Type>)
    requires |w3.labels| == |w1.labels| == |w.labels| + 1 && |w3.tries| == |w.tries|
    requires forall i {:trigger w3.labels[i]} | 0 <= i < |w.labels| ::
               w3.labels[i] == w.labels[i].(used := w3.labels[i].used) && (w.labels[i].used ==> w3.labels[i].used)
    requires forall i {:trigger w3.tries[i]} | 0 <= i < |w.tries| ::
               w3.tries[i].name == w.tries[i].name && (w.tries[i].used ==> w3.tries[i].used)
    requires w3.sound ==> w.sound
    requires Grown(w3, w4)
    ensures Grown(w, PopBlock(w4, w0, results))
  {
    var p := PopBlock(w4, w0, results);
    forall i | 0 <= i < |w.labels|
      ensures p.labels[i] == w.labels[i].(used := p.labels[i].used) && (w.labels[i].used ==> p.labels[i].used)
    {
      assert p.labels[i] == w4.labels[i] && w3.labels[i].used == w3.labels[i].used;
    }
  }

  lemma {:induction false} GrownCatches(cfg: Config, cs: seq<Catch>, w0: Writer, w: Writer)
    ensures Grown(w, LowerCatches(cfg, cs, w0, w).1)
    decreases cs, 0
  {
    if cs != [] {
      match cs[0].tag
      case None => GrownList(cfg, cs[0].exprs, ResetTs(w, w0, []));
      case Some(t) =>
        var w1 := ResetTs(w, w0, TagOf(cfg.env, t));
        GrownList(cfg, cs[0].exprs, w1);
        var w2 := LowerList(cfg, cs[0].exprs, w1).1;
        GrownCatches(cfg, cs[1..], w0, w2);
    }
  }

  // ----- label names -----

  /** The label names declared in a list. */
  function Names(es: seq<Expr>): set<string>
    decreases es, 0
  {
    if es == [] then {} else ExprNames(es[0]) + Names(es[1..])
  }

  function ExprNames(e: Expr): set<string>
    decreases e, 1
  {
    match e
    case Block(l, _, b) => {l} + Names(b)
    case Loop(l, _, b) => {l} + Names(b)
    case If(l, _, a, b) => {l} + Names(a) + Names(b)
    case Try(l, _, b, _, cs, _) => {l} + Names(b) + CatchNames(cs)
    case _ => {}
  }

  function CatchNames(cs: seq<Catch>): set<string>
    decreases cs, 0
  {
    if cs == [] then {} else Names(cs[0].exprs) + CatchNames(cs[1..])
  }

  /** Label names are non-empty, occur once, and avoid `used`. */
  predicate Fresh(es: seq<Expr>, used: set<string>)
    decreases es, 0
  {
    es == [] || (FreshExpr(es[0], used) && Fresh(es[1..], used + ExprNames(es[0])))
  }

  predicate FreshExpr(e: Expr, used: set<string>)
    decreases e, 1
  {
    match e
    case Block(l, _, b) => l != "" && l !in used && Fresh(b, used + {l})
    case Loop(l, _, b) => l != "" && l !in used && Fresh(b, used + {l})
    case If(l, _, a, b) =>
      l != "" && l !in used && Fresh(a, used + {l}) && Fresh(b, used + {l} + Names(a))
    case Try(l, _, b, _, cs, _) =>
      l != "" && l !in used && Fresh(b, used + {l}) && FreshCatches(cs, used + {l} + Names(b))
    case _ => true
  }

  predicate FreshCatches(cs: seq<Catch>, used: set<string>)
    decreases cs, 0
  {
    cs == [] || (Fresh(cs[0].exprs, used) && FreshCatches(cs[1..], used + Names(cs[0].exprs)))
  }

  lemma {:induction false} FreshDisjoint(es: seq<Expr>, used: set<string>)
    requires Fresh(es, used)
    ensures Names(es) !! used
    decreases es, 0
  {
    if es != [] {
      FreshExprDisjoint(es[0], used);
      FreshDisjoint(es[1..], used + ExprNames(es[0]));
    }
  }

  lemma {:induction false} FreshExprDisjoint(e: Expr, used: set<string>)
    requires FreshExpr(e, used)
    ensures ExprNames(e) !! used
    decreases e, 1
  {
    match e
    case Block(l, _, b) => FreshDisjoint(b, used + {l});
    case Loop(l, _, b) => FreshDisjoint(b, used + {l});
    case If(l, _, a, b) => FreshDisjoint(a, used + {l}); FreshDisjoint(b, used + {l} + Names(a));
    case Try(l, _, b, _, cs, _) => FreshDisjoint(b, used + {l}); FreshCatchesDisjoint(cs, used + {l} + Names(b));
    case _ =>
  }

  lemma {:induction false} FreshCatchesDisjoint(cs: seq<Catch>, used: set<string>)
    requires FreshCatches(cs, used)
    ensures CatchNames(cs) !! used
    decreases cs, 0
  {
    if cs != [] {
      FreshDisjoint(cs[0].exprs, used);
      FreshCatchesDisjoint(cs[1..], used + Names(cs[0].exprs));
    }
  }

  /** Only labels named after the list's own blocks are written. */
  ghost predicate Within(ls: set<CLabel>, names: set<string>) {
    forall l | l in ls :: (l.UserLabel? || l.CatchLabel?) && l.name in names
  }

  lemma WithinAppend(a: Code, b: Code, names: set<string>)
    requires Within(Labels(a), names) && Within(Labels(b), names)
    ensures Within(Labels(Append(a, b)), names)
  {
    LabelsAppend(a, b);
  }

  lemma WithinCons(s: Stmt, t: Code, names: set<string>)
    requires Within(StmtLabels(s), names) && Within(Labels(t), names)
    ensures Within(Labels(Cons(s, t)), names)
  {}

  lemma MovesLabels(dst: int, to: seq<Type>, src: int, from: seq<Type>)
    ensures Labels(Moves(dst, to, src, from)) == {}
    decreases |to|
  {}

  lemma GotoLabels(v: Var, w: Writer)
    ensures Labels(LowerGoto(v, w).0) == {}
  {
    var i := FindLabel(w.labels, v);
    if i < |w.labels| {
      var l := w.labels[i];
      var moves := BranchMoves(w.ts, l.typeStackSize, l.frame.sig);
      MovesLabels(l.typeStackSize, l.frame.sig, |w.ts| - |l.frame.sig|, TopN(w.ts, |l.frame.sig|));
      LabelsAppend(UnwindCode(w.tries, l.tryStackSize), One(Goto(GotoTarget(v))));
      LabelsAppend(moves, Append(UnwindCode(w.tries, l.tryStackSize), One(Goto(GotoTarget(v)))));
    }
  }

  lemma {:induction false} CasesLabels(vs: seq<Var>, d: Var, w: Writer)
    ensures CaseLabels(LowerCases(vs, d, w).0) == {}
    decreases |vs|
  {
    if vs == [] {
      GotoLabels(d, w);
    } else {
      GotoLabels(vs[0], w);
      CasesLabels(vs[1..], d, LowerGoto(vs[0], w).1);
    }
  }

  lemma TraceLabels(trace: bool, store: bool, addr: CExpr)
    ensures Labels(TraceCode(trace, store, addr)) == {}
  {
    assert Labels(One(Print(LogFile, store, addr))) == {};
  }

  lemma ThrowLabels(w: Writer)
    ensures Labels(LowerThrow(w).0) == {}
  {}

  lemma DelegateLabels(v: Var, w: Writer)
    ensures Labels(LowerDelegate(v, w).0) == {}
  {
    assert Labels(One(RtThrow)) == {};
  }

  lemma ElseLabels(c: Code)
    ensures Labels(ElseBound(c)) + Labels(ElseLeft(c)) == Labels(c)
  {
    ElseSplits(c);
    LabelsAppend(ElseBound(c), ElseLeft(c));
  }

  lemma InstrLabels(cfg: Config, i: Instr, ts: seq<Type>)
    ensures Labels(LowerInstr(cfg, i, ts).0) == {}
  {
    match i
    case Load(acc, _, k, offset) =>
      TraceLabels(cfg.trace, false, VarX(StackVar(ts, 0)));
      LabelsAppend(TraceCode(cfg.trace, false, VarX(StackVar(ts, 0))),
                   One(LoadMem(StackVar(ts, 0).0, acc.ty, acc, k, VarX(StackVar(ts, 0)), offset)));
    case Store(acc, _, k, offset) =>
      TraceLabels(cfg.trace, true, VarX(StackVar(ts, 1)));
      LabelsAppend(TraceCode(cfg.trace, true, VarX(StackVar(ts, 1))),
                   One(StoreMem(acc, k, VarX(StackVar(ts, 1)), offset, VarX(StackVar(ts, 0)))));
    case _ =>
  }

  lemma {:induction false} ListLabels(cfg: Config, es: seq<Expr>, w: Writer)
    ensures Within(Labels(LowerList(cfg, es, w).0), Names(es))
    decreases es, 0
  {
    if es != [] {
      ExprLabels(cfg, es[0], w);
      var (c1, w1) := LowerExpr(cfg, es[0], w);
      if !Ends(es[0]) {
        ListLabels(cfg, es[1..], w1);
        LabelsAppend(c1, LowerList(cfg, es[1..], w1).0);
      }
    }
  }

  lemma {:induction false} ExprLabels(cfg: Config, e: Expr, w: Writer)
    ensures Within(Labels(LowerExpr(cfg, e, w).0), ExprNames(e))
    decreases e, 2
  {
    hide LowerList, LowerGoto, LowerBlock, LowerLoop, LowerIf, LowerTry, LowerCases, LowerInstr, LowerThrow, TopSlots,
        Names,
        CatchNames;
    match e
    case Plain(i) => InstrLabels(cfg, i, w.ts);
    case Br(v) => GotoLabels(v, w);
    case BrIf(v) => GotoLabels(v, w.(ts := DropN(w.ts, 1)));
    case BrTable(vs, d) => CasesLabels(vs, d, w.(ts := DropN(w.ts, 1)));
    case Return => GotoLabels(Index(if w.labels == [] then 0 else |w.labels| - 1), w);
    case Unreachable =>
    case Throw(t) => ThrowLabels(w);
    case Rethrow(v) => ThrowLabels(w);
    case Block(l, d, body) => BlockLabels(cfg, l, d, body, w);
    case Loop(_, _, _) => LoopLabels(cfg, e, w);
    case If(_, _, _, _) => IfLabels(cfg, e, w);
    case Try(l, d, body, kind, catches, delegate) =>
      if kind == PlainTry { BlockLabels(cfg, l, d, body, w); } else { TryLabels(cfg, e, w); }
  }

  lemma {:induction false} BlockLabels(cfg: Config, l: string, d: BlockDecl, body: seq<Expr>, w: Writer)
    ensures Within(Labels(LowerBlock(cfg, l, d, body, w).0), {l} + Names(body))
    decreases body, 1
  {
    var w0 := w.(ts := DropN(w.ts, |d.sig.params|));
    var w1 := Enter(w0, Frame(l, d.sig.results), BlockKind, d.sig.params);
    ListLabels(cfg, body, w1);
    LabelsAppend(LowerList(cfg, body, w1).0, LabelDecl(LowerList(cfg, body, w1).1, UserLabel(l)));
  }

  lemma {:induction false} LoopLabels(cfg: Config, e: Expr, w: Writer)
    requires e.Loop?
    ensures Within(Labels(LowerLoop(cfg, e, w).0), ExprNames(e))
    decreases e, 1
  {
    var sig := e.decl.sig;
    var w0 := w.(ts := DropN(w.ts, |sig.params|));
    ListLabels(cfg, e.body, Enter(w0, Frame(e.name, sig.params), LoopKind, sig.params));
  }

  lemma {:induction false} IfLabels(cfg: Config, e: Expr, w: Writer)
    requires e.If?
    ensures Within(Labels(LowerIf(cfg, e, w).0), ExprNames(e))
    decreases e, 1
  {
    var sig := e.decl.sig;
    var w0 := w.(ts := DropN(DropN(w.ts, 1), |sig.params|));
    var w1 := Enter(w0, Frame(e.name, sig.results), IfKind, sig.params);
    ListLabels(cfg, e.thn, w1);
    var (c1, w2) := LowerList(cfg, e.thn, w1);
    var w2' := ResetTs(w2, w0, sig.params);
    ListLabels(cfg, e.els, w2');
    var (c2, w3) := if e.els == [] then (Nil, w2) else LowerList(cfg, e.els, w2');
    WithinCons(IfElse(VarX(StackVar(w.ts, 0)), c1, c2), LabelDecl(w3, UserLabel(e.name)), ExprNames(e));
  }

  lemma {:induction false} TryLabels(cfg: Config, e: Expr, w: Writer)
    requires e.Try?
    ensures Within(Labels(LowerTry(cfg, e, w).0), ExprNames(e))
    decreases e, 1
  {
    hide LowerList, LowerCatches, LowerDelegate, BeginCatches, EnterTry;
    var (l, sig) := (e.name, e.decl.sig);
    var names := ExprNames(e);
    var w0 := w.(ts := DropN(w.ts, |sig.params|));
    var w1 := EnterTry(w0, Frame(l, sig.results), sig.params);
    ListLabels(cfg, e.body, w1);
    var (c1, w2) := LowerList(cfg, e.body, w1);
    var w3 := BeginCatches(w2, w0);
    assert Within(Labels(Landing(w2, l)), names);
    if e.kind == CatchTry {
      CatchesLabels(cfg, e.catches, w0, PopTry(w3));
      var (c2, w4) := LowerCatches(cfg, e.catches, w0, PopTry(w3));
      var save := SaveCode(cfg, l);
      WithinAppend(save, c2, names);
      WithinCons(UnwindOuter(l), Append(save, c2), names);
      WithinAppend(Landing(w2, l), Cons(UnwindOuter(l), Append(save, c2)), names);
      WithinTryCode(l, c1, Append(Landing(w2, l), Cons(UnwindOuter(l), Append(save, c2))),
          LabelDecl(w4, UserLabel(l)), names);
    } else {
      var (c2, w4) := LowerDelegate(e.delegate, w3);
      DelegateLabels(e.delegate, w3);
      WithinAppend(Landing(w2, l), c2, names);
      WithinTryCode(l, c1, Append(Landing(w2, l), c2), LabelDecl(w4, UserLabel(l)), names);
    }
  }

  lemma WithinTryCode(l: string, body: Code, handler: Code, after: Code, names: set<string>)
    requires Within(Labels(body), names) && Within(Labels(handler), names) && Within(Labels(after), names)
    ensures Within(Labels(TryCode(l, body, handler, after)), names)
  {
    var inner := Cons(UnwindTo(l), Append(body, One(UnwindOuter(l))));
    WithinCons(UnwindOuter(l), Nil, names);
    WithinAppend(body, One(UnwindOuter(l)), names);
    WithinCons(UnwindTo(l), Append(body, One(UnwindOuter(l))), names);
    WithinCons(IfTry(l, inner, handler), after, names);
  }

  lemma {:induction false} CatchesLabels(cfg: Config, cs: seq<Catch>, w0: Writer, w: Writer)
    ensures Within(Labels(LowerCatches(cfg, cs, w0, w).0), CatchNames(cs))
    decreases cs, 0
  {
    if cs != [] {
      match cs[0].tag
      case None => ListLabels(cfg, cs[0].exprs, ResetTs(w, w0, []));
      case Some(t) =>
        var tys := TagOf(cfg.env, t);
        var w1 := ResetTs(w, w0, tys);
        ListLabels(cfg, cs[0].exprs, w1);
        var (c1, w2) := LowerList(cfg, cs[0].exprs, w1);
        CatchesLabels(cfg, cs[1..], w0, w2);
        var unpack := UnpackCode(|w0.ts|, tys);
        LabelsAppend(unpack, c1);
        assert Labels(unpack) == {};
        ElseLabels(LowerCatches(cfg, cs[1..], w0, w2).0);
    }
  }

  // ----- the type stack follows validation -----

  function Frames(ls: seq<LabelEntry>): (fs: seq<Frame>)
    ensures |fs| == |ls| && forall i | 0 <= i < |ls| :: fs[i] == ls[i].frame
  {
    seq(|ls|, i requires 0 <= i < |ls| => ls[i].frame)
  }

  lemma GrownFrames(w: Writer, w1: Writer)
    requires Grown(w, w1)
    ensures Frames(w1.labels) == Frames(w.labels)
  {
    forall i | 0 <= i < |w.labels| ensures w1.labels[i].frame == w.labels[i].frame { var e := w1.labels[i]; }
  }

  lemma ShiftDrop(tb: seq<Type>, ts: seq<Type>, pops: seq<Type>, pushes: seq<Type>)
    requires EndsWith(ts, pops)
    ensures DropN(tb + ts, |pops|) + pushes == tb + (ts[..|ts| - |pops|] + pushes)
    ensures forall i | 0 <= i < |pops| :: StackVar(tb + ts, i).1 == pops[|pops| - 1 - i]
  {
    forall i | 0 <= i < |pops| ensures StackVar(tb + ts, i).1 == pops[|pops| - 1 - i] {
      assert ts[|ts| - |pops|..][|pops| - 1 - i] == ts[|ts| - 1 - i];
    }
  }

  lemma FollowsInstr(cfg: Config, i: Instr, tb: seq<Type>, ts: seq<Type>)
    requires TypeInstr(cfg.env, i, ts) != Ill
    ensures TypeInstr(cfg.env, i, ts).Live?
    ensures LowerInstr(cfg, i, tb + ts).1 == tb + TypeInstr(cfg.env, i, ts).ts
  {
    if i.Call? { FollowsCall(cfg, i.func, tb, ts); return; }
    hide LowerInstr, TypeInstr;
    match i
    case Binary(ty, op) => FollowsBinary(cfg, ty, op, tb, ts);
    case Select => FollowsSelect(cfg, tb, ts);
    case LocalTee(_) => FollowsSet(cfg, i, tb, ts);
    case Drop => FollowsSet(cfg, i, tb, ts);
    case Nop => FollowsSet(cfg, i, tb, ts);
    case LocalSet(_) => FollowsSet(cfg, i, tb, ts);
    case GlobalSet(_) => FollowsSet(cfg, i, tb, ts);
    case Compare(ty, op) => FollowsTest(cfg, i, ty, tb, ts);
    case Eqz(ty) => FollowsTest(cfg, i, ty, tb, ts);
    case Load(_, _, _, _) => FollowsMemory(cfg, i, tb, ts);
    case Store(_, _, _, _) => FollowsMemory(cfg, i, tb, ts);
    case _ => FollowsGet(cfg, i, tb, ts);
  }

  lemma FollowsCall(cfg: Config, f: nat, tb: seq<Type>, ts: seq<Type>)
    requires TypeInstr(cfg.env, Call(f), ts) != Ill
    ensures TypeInstr(cfg.env, Call(f), ts).Live?
    ensures LowerInstr(cfg, Call(f), tb + ts).1 == tb + TypeInstr(cfg.env, Call(f), ts).ts
  {
    hide SlotsFrom, TopSlots;
    ShiftDrop(tb, ts, cfg.env.funcs[f].params, cfg.env.funcs[f].results);
  }

  lemma FollowsSet(cfg: Config, i: Instr, tb: seq<Type>, ts: seq<Type>)
    requires i.Drop? || i.Nop? || i.LocalSet? || i.LocalTee? || i.GlobalSet?
    requires TypeInstr(cfg.env, i, ts) != Ill
    ensures TypeInstr(cfg.env, i, ts).Live?
    ensures LowerInstr(cfg, i, tb + ts).1 == tb + TypeInstr(cfg.env, i, ts).ts
  {
    hide InstrCode, DropN, Shift, EndsWith;
    if i.GlobalSet? {
      OneShifted(ts, cfg.env.globals[i.global]);
    } else if i.LocalSet? || i.LocalTee? {
      OneShifted(ts, cfg.env.locals[i.local]);
    }
    if i.Nop? || i.LocalTee? { NothingDropped(tb + ts); } else { OneDropped(tb, ts); }
  }

  lemma NothingDropped(ts: seq<Type>)
    ensures DropN(ts, 0) + [] == ts
  {}

  lemma OneDropped(tb: seq<Type>, ts: seq<Type>)
    requires |ts| >= 1
    ensures DropN(tb + ts, 1) + [] == tb + ts[..|ts| - 1]
  {}

  lemma OneShifted(ts: seq<Type>, t: Type)
    ensures Shift(ts, [t], []) == if |ts| >= 1 && ts[|ts| - 1] == t then Live(ts[..|ts| - 1]) else Ill
    ensures Shift(ts, [t], [t]) == if |ts| >= 1 && ts[|ts| - 1] == t then Live(ts) else Ill
  {
    if |ts| >= 1 { assert ts == ts[..|ts| - 1] + [ts[|ts| - 1]]; }
  }

  lemma FollowsGet(cfg: Config, i: Instr, tb: seq<Type>, ts: seq<Type>)
    requires i.Const? || i.LocalGet? || i.GlobalGet?
    requires TypeInstr(cfg.env, i, ts) != Ill
    ensures TypeInstr(cfg.env, i, ts).Live?
    ensures LowerInstr(cfg, i, tb + ts).1 == tb + TypeInstr(cfg.env, i, ts).ts
  {
    ShiftDrop(tb, ts, [], [if i.Const? then i.v.ty else if i.LocalGet? then cfg.env.locals[i.local]
        else cfg.env.globals[i.global]]);
  }

  lemma FollowsTest(cfg: Config, i: Instr, ty: Type, tb: seq<Type>, ts: seq<Type>)
    requires (i.Compare? || i.Eqz?) && i.ty == ty
    requires TypeInstr(cfg.env, i, ts) != Ill
    ensures TypeInstr(cfg.env, i, ts).Live?
    ensures LowerInstr(cfg, i, tb + ts).1 == tb + TypeInstr(cfg.env, i, ts).ts
  {
    ShiftDrop(tb, ts, if i.Eqz? then [ty] else [ty, ty], [I32]);
  }

  lemma FollowsMemory(cfg: Config, i: Instr, tb: seq<Type>, ts: seq<Type>)
    requires i.Load? || i.Store?
    requires TypeInstr(cfg.env, i, ts) != Ill
    ensures TypeInstr(cfg.env, i, ts).Live?
    ensures LowerInstr(cfg, i, tb + ts).1 == tb + TypeInstr(cfg.env, i, ts).ts
  {
    if i.Load? { ShiftDrop(tb, ts, [I32], [i.acc.ty]); } else { ShiftDrop(tb, ts, [I32, i.acc.ty], []); }
  }

  lemma FollowsBinary(cfg: Config, ty: Type, op: BinOp, tb: seq<Type>, ts: seq<Type>)
    requires TypeInstr(cfg.env, Binary(ty, op), ts) != Ill
    ensures TypeInstr(cfg.env, Binary(ty, op), ts).Live?
    ensures LowerInstr(cfg, Binary(ty, op), tb + ts).1 == tb + TypeInstr(cfg.env, Binary(ty, op), ts).ts
  {
    hide BinaryX;
    ShiftDrop(tb, ts, [ty, ty], [ty]);
    assert ts[|ts| - 2..][0] == ty;
    assert DropN(tb + ts, 1) + [] == DropN(tb + ts, 2) + [ty];
  }

  lemma FollowsSelect(cfg: Config, tb: seq<Type>, ts: seq<Type>)
    requires TypeInstr(cfg.env, Select, ts) != Ill
    ensures TypeInstr(cfg.env, Select, ts).Live?
    ensures LowerInstr(cfg, Select, tb + ts).1 == tb + TypeInstr(cfg.env, Select, ts).ts
  {
    ShiftDrop(tb, ts, [ts[|ts| - 3], ts[|ts| - 3], I32], [ts[|ts| - 3]]);
  }

  /** From a well-typed start, sound code leaves exactly the validator's stack above what
      lies below. */
  lemma {:induction false} FollowsList(cfg: Config, es: seq<Expr>, ex: set<string>, tb: seq<Type>, ts: seq<Type>,
      w: Writer)
    requires w.ts == tb + ts && !w.dead && LowerList(cfg, es, w).1.sound
    requires TypeList(cfg.env, es, Frames(w.labels), ex, ts).Live?
    ensures LowerList(cfg, es, w).1.ts == tb + TypeList(cfg.env, es, Frames(w.labels), ex, ts).ts
    ensures !LowerList(cfg, es, w).1.dead
    decreases es, 0
  {
    if es != [] {
      var w1 := LowerExpr(cfg, es[0], w).1;
      LiveGoesOn(cfg.env, es[0], Frames(w.labels), ex, ts);
      GrownExpr(cfg, es[0], w);
      GrownFrames(w, w1);
      GrownList(cfg, es[1..], w1);
      FollowsExpr(cfg, es[0], ex, tb, ts, w);
      FollowsList(cfg, es[1..], ex, tb, TypeExpr(cfg.env, es[0], Frames(w.labels), ex, ts).ts, w1);
    }
  }

  lemma LiveGoesOn(env: Env, e: Expr, fs: seq<Frame>, ex: set<string>, ts: seq<Type>)
    requires TypeExpr(env, e, fs, ex, ts).Live?
    ensures !Leaves(e)
  {}

  /** A list that leaves has no end that can be reached. */
  lemma {:induction false} LeavesDead(env: Env, es: seq<Expr>, fs: seq<Frame>, ex: set<string>, ts: seq<Type>)
    requires LeavesList(es)
    ensures !TypeList(env, es, fs, ex, ts).Live?
    decreases es
  {
    var r := TypeExpr(env, es[0], fs, ex, ts);
    if r.Live? {
      LiveGoesOn(env, es[0], fs, ex, ts);
      LeavesDead(env, es[1..], fs, ex, r.ts);
    }
  }

  lemma FollowsExpr(cfg: Config, e: Expr, ex: set<string>, tb: seq<Type>, ts: seq<Type>, w: Writer)
    requires w.ts == tb + ts && !w.dead && LowerExpr(cfg, e, w).1.sound
    requires TypeExpr(cfg.env, e, Frames(w.labels), ex, ts).Live?
    ensures LowerExpr(cfg, e, w).1.ts == tb + TypeExpr(cfg.env, e, Frames(w.labels), ex, ts).ts
    ensures !LowerExpr(cfg, e, w).1.dead
  {
    match e
    case Plain(i) => FollowsInstr(cfg, i, tb, ts);
    case BrIf(v) => FollowsBrIf(cfg, v, ex, tb, ts, w);
    case Block(l, d, body) => FollowsBlock(cfg, e, ex, tb, ts, w);
    case Loop(_, _, _) => FollowsLoop(cfg, e, ex, tb, ts, w);
    case If(_, _, _, _) => FollowsIf(cfg, e, ex, tb, ts, w);
    case Try(l, d, body, kind, catches, delegate) =>
      if kind == PlainTry { FollowsBlock(cfg, e, ex, tb, ts, w); } else { FollowsTry(cfg, e, ex, tb, ts, w); }
    case _ => LiveGoesOn(cfg.env, e, Frames(w.labels), ex, ts);
  }

  lemma FollowsBrIf(cfg: Config, v: Var, ex: set<string>, tb: seq<Type>, ts: seq<Type>, w: Writer)
    requires w.ts == tb + ts && !w.dead
    requires TypeExpr(cfg.env, BrIf(v), Frames(w.labels), ex, ts).Live?
    ensures LowerExpr(cfg, BrIf(v), w).1.ts == tb + TypeExpr(cfg.env, BrIf(v), Frames(w.labels), ex, ts).ts
    ensures !LowerExpr(cfg, BrIf(v), w).1.dead
  {
    assert DropN(w.ts, 1) == tb + ts[..|ts| - 1];
    GrownGoto(v, w.(ts := DropN(w.ts, 1)));
  }

  lemma EnterFrames(w: Writer, f: Frame, kind: LabelKind, params: seq<Type>)
    ensures Frames(Enter(w, f, kind, params).labels) == Frames(w.labels) + [f]
  {}

  /** The operands of a block are the top of the stack. */
  lemma DropParams(tb: seq<Type>, ts: seq<Type>, params: seq<Type>)
    requires EndsWith(ts, params)
    ensures DropN(tb + ts, |params|) == tb + ts[..|ts| - |params|]
  {}

  /** Closing a block that has kept the types below it. */
  lemma FollowsPop(w2: Writer, w0: Writer, results: seq<Type>)
    requires !w0.dead && PopBlock(w2, w0, results).sound
    ensures PopBlock(w2, w0, results).ts == w0.ts + results && !PopBlock(w2, w0, results).dead
    ensures w0.ts <= w2.ts && w2.sound
  {}

  lemma FollowsBlock(cfg: Config, e: Expr, ex: set<string>, tb: seq<Type>, ts: seq<Type>, w: Writer)
    requires e.Block? || (e.Try? && e.kind == PlainTry)
    requires w.ts == tb + ts && !w.dead && LowerExpr(cfg, e, w).1.sound
    requires TypeExpr(cfg.env, e, Frames(w.labels), ex, ts).Live?
    ensures LowerExpr(cfg, e, w).1.ts == tb + TypeExpr(cfg.env, e, Frames(w.labels), ex, ts).ts
    ensures !LowerExpr(cfg, e, w).1.dead
  {
    hide LowerList, TypeBody, PopBlock;
    var sig := e.decl.sig;
    var w0 := w.(ts := DropN(w.ts, |sig.params|));
    DropParams(tb, ts, sig.params);
    var w2 := LowerList(cfg, e.body, Enter(w0, Frame(e.name, sig.results), BlockKind, sig.params)).1;
    assert LowerExpr(cfg, e, w).1 == PopBlock(w2, w0, sig.results);
    FollowsPop(w2, w0, sig.results);
  }

  lemma FollowsLoop(cfg: Config, e: Expr, ex: set<string>, tb: seq<Type>, ts: seq<Type>, w: Writer)
    requires w.ts == tb + ts && !w.dead && e.Loop? && LowerLoop(cfg, e, w).1.sound
    requires TypeExpr(cfg.env, e, Frames(w.labels), ex, ts).Live?
    ensures LowerLoop(cfg, e, w).1.ts == tb + TypeExpr(cfg.env, e, Frames(w.labels), ex, ts).ts
    ensures !LowerLoop(cfg, e, w).1.dead
  {
    hide LowerList, PopBlock;
    var sig := e.decl.sig;
    var w0 := w.(ts := DropN(w.ts, |sig.params|));
    DropParams(tb, ts, sig.params);
    if e.body == [] {
      assert TypeList(cfg.env, e.body, Frames(w.labels) + [Frame(e.name, sig.params)], ex, sig.params)
          == Live(sig.params);
      assert ts == ts[..|ts| - |sig.params|] + sig.params;
    } else {
      hide TypeBody;
      FollowsPop(LowerList(cfg, e.body, Enter(w0, Frame(e.name, sig.params), LoopKind, sig.params)).1, w0, sig.results);
    }
  }

  lemma FollowsIf(cfg: Config, e: Expr, ex: set<string>, tb: seq<Type>, ts: seq<Type>, w: Writer)
    requires w.ts == tb + ts && !w.dead && e.If? && LowerIf(cfg, e, w).1.sound
    requires TypeExpr(cfg.env, e, Frames(w.labels), ex, ts).Live?
    ensures LowerIf(cfg, e, w).1.ts == tb + TypeExpr(cfg.env, e, Frames(w.labels), ex, ts).ts
    ensures !LowerIf(cfg, e, w).1.dead
  {
    hide LowerList, TypeBody, PopBlock, ShapeOf, LabelDecl;
    var sig := e.decl.sig;
    var ts0 := ts[..|ts| - 1];
    assert DropN(w.ts, 1) == tb + ts0;
    DropParams(tb, ts0, sig.params);
    var w0 := w.(ts := DropN(DropN(w.ts, 1), |sig.params|));
    var w2 := LowerList(cfg, e.thn, Enter(w0, Frame(e.name, sig.results), IfKind, sig.params)).1;
    var w3 := if e.els == [] then w2 else LowerList(cfg, e.els, ResetTs(w2, w0, sig.params)).1;
    FollowsPop(w3, w0, sig.results);
  }

  /** What typing says of a try. */
  lemma TryTyped(env: Env, e: Expr, fs: seq<Frame>, ex: set<string>, ts: seq<Type>)
    requires e.Try? && TypeExpr(env, e, fs, ex, ts) != Ill
    ensures var sig := e.decl.sig;
            var fs1 := fs + [Frame(e.name, sig.results)];
            && EndsWith(ts, sig.params)
            && TypeExpr(env, e, fs, ex, ts) == Live(ts[..|ts| - |sig.params|] + sig.results)
            && TypeBody(env, e.body, fs1, ex, sig.params, sig.results)
            && (e.kind == CatchTry ==> e.catches != [] && TypeCatches(env, e.catches, fs1, ex + {e.name}, sig.results))
            && (e.kind == DelegateTry ==> Resolve(fs, e.delegate).Some?)
  {}

  lemma FollowsTry(cfg: Config, e: Expr, ex: set<string>, tb: seq<Type>, ts: seq<Type>, w: Writer)
    requires w.ts == tb + ts && !w.dead && e.Try? && e.kind != PlainTry && LowerTry(cfg, e, w).1.sound
    requires TypeExpr(cfg.env, e, Frames(w.labels), ex, ts).Live?
    ensures LowerTry(cfg, e, w).1.ts == tb + TypeExpr(cfg.env, e, Frames(w.labels), ex, ts).ts
    ensures !LowerTry(cfg, e, w).1.dead
  {
    hide TypeExpr, LowerList, LowerCatches, LowerDelegate, EndsWith, TryCode, Landing, SaveCode, LabelDecl, ShapeOf,
        PopBlock, EnterTry, BeginCatches;
    TryTyped(cfg.env, e, Frames(w.labels), ex, ts);
    var sig := e.decl.sig;
    var w0 := w.(ts := DropN(w.ts, |sig.params|));
    DropParams(tb, ts, sig.params);
    var w3 := BeginCatches(LowerList(cfg, e.body, EnterTry(w0, Frame(e.name, sig.results), sig.params)).1, w0);
    if e.kind == CatchTry {
      FollowsPop(LowerCatches(cfg, e.catches, w0, PopTry(w3)).1, w0, sig.results);
    } else {
      FollowsPop(PopTry(LowerDelegate(e.delegate, w3).1), w0, sig.results);
    }
  }
}

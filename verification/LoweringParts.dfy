/** How the code of a block is laid out: what the proof for a construct may use about its
    parts, where they stand, and the states they start in. */
module LoweringParts {
  import opened Ir
  import opened Wasm
  import opened Typing
  import opened CLang
  import opened Lowering
  import opened LoweringShape
  import opened LoweringRel
  import opened LoweringInstr
  import opened LoweringBranch
  import opened LoweringScope
  import opened LoweringLeaf
  import opened LoweringTry

  lemma ListParts(ctx: Ctx, es: seq<Expr>, used: set<string>, w: Writer, k: Code)
    requires es != [] && !Ends(es[0]) && Fresh(es, used)
    requires Placed(ctx, LowerList(ctx.cfg, es, w).0, LowerList(ctx.cfg, es, w).1, k)
    ensures var (c1, w1) := LowerExpr(ctx.cfg, es[0], w);
            var (c2, w2) := LowerList(ctx.cfg, es[1..], w1);
            && LowerList(ctx.cfg, es, w) == (Append(c1, c2), w2)
            && Placed(ctx, c1, w1, Append(c2, k)) && Placed(ctx, c2, w2, k)
            && Append(Append(c1, c2), k) == Append(c1, Append(c2, k))
            && Grown(w, w1) && Grown(w1, w2)
  {
    var (c1, w1) := LowerExpr(ctx.cfg, es[0], w);
    var (c2, w2) := LowerList(ctx.cfg, es[1..], w1);
    assert LowerList(ctx.cfg, es, w) == (Append(c1, c2), w2);
    ExprLabels(ctx.cfg, es[0], w);
    ListLabels(ctx.cfg, es[1..], w1);
    FreshDisjoint(es[1..], used + ExprNames(es[0]));
    WithinDisjoint(Labels(c1), Labels(c2), ExprNames(es[0]), Names(es[1..]));
    LocatedAppend(ctx.p, c1, c2, k);
    AppendAssoc(c1, c2, k);
    GrownExpr(ctx.cfg, es[0], w);
    GrownList(ctx.cfg, es[1..], w1);
    JumpsEarlier(ctx, w1, w2);
  }

  lemma DeclLands(w: Writer, l: CLabel, k: Code)
    ensures Lands(Append(LabelDecl(w, l), k), k)
    ensures !l.FuncLabel? ==> Within(Labels(LabelDecl(w, l)), {l.name})
  {
    AppendOne(LabelHere(l, true), k);
  }

  /** A written label leads to the code after it. */
  lemma DeclFound(p: Prog, w: Writer, l: CLabel, k: Code)
    requires Located(p, LabelDecl(w, l), k) && TopLabelUsed(w)
    ensures Find(l, p.body, Nil) == Some(k)
  {
    LocatedHere(p, l, true, Nil, k);
  }

  lemma BlockParts(ctx: Ctx, ctx1: Ctx, l: string, d: BlockDecl, body: seq<Expr>, used: set<string>, w: Writer, k: Code)
    requires Fresh(body, used + {l}) && l !in used && w.labels != []
    requires Placed(ctx, LowerBlock(ctx.cfg, l, d, body, w).0, LowerBlock(ctx.cfg, l, d, body, w).1, k)
    requires ctx1 == ctx.(ks := ctx.ks + [k])
    ensures var w0 := w.(ts := DropN(w.ts, |d.sig.params|));
            var w1 := Enter(w0, Frame(l, d.sig.results), BlockKind, d.sig.params);
            var (c, w2) := LowerList(ctx.cfg, body, w1);
            var decl := LabelDecl(w2, UserLabel(l));
            && LowerBlock(ctx.cfg, l, d, body, w) == (Append(c, decl), PopBlock(w2, w0, d.sig.results))
            && Grown(w1, w2) && Placed(ctx1, c, w2, Append(decl, k)) && Lands(Append(decl, k), k)
            && Append(Append(c, decl), k) == Append(c, Append(decl, k))
  {
    hide LowerList, LowerBlock, Fresh, Within, LabelDecl, Lands, PopBlock;
    BlockLayout(ctx.cfg, l, d, body, w);
    var w0 := w.(ts := DropN(w.ts, |d.sig.params|));
    var w1 := Enter(w0, Frame(l, d.sig.results), BlockKind, d.sig.params);
    var (c, w2) := LowerList(ctx.cfg, body, w1);
    var decl := LabelDecl(w2, UserLabel(l));
    var w3 := PopBlock(w2, w0, d.sig.results);
    GrownList(ctx.cfg, body, w1);
    assert w1.labels[|w.labels|].frame.name == l;
    assert w2.labels[|w.labels|].frame.name == l;
    ListLabels(ctx.cfg, body, w1);
    FreshDisjoint(body, used + {l});
    DeclLands(w2, UserLabel(l), k);
    WithinDisjoint(Labels(c), Labels(decl), Names(body), {l});
    LocatedAppend(ctx.p, c, decl, k);
    AppendAssoc(c, decl, k);
    if TopLabelUsed(w2) { DeclFound(ctx.p, w2, UserLabel(l), k); }
    hide Labels, Located, Append;
    JumpsInner(ctx, ctx1, k, w2, w3);
  }

  lemma BlockLayout(cfg: Config, l: string, d: BlockDecl, body: seq<Expr>, w: Writer)
    ensures var w0 := w.(ts := DropN(w.ts, |d.sig.params|));
            var (c, w2) := LowerList(cfg, body, Enter(w0, Frame(l, d.sig.results), BlockKind, d.sig.params));
            var w3 := PopBlock(w2, w0, d.sig.results);
            && LowerBlock(cfg, l, d, body, w) == (Append(c, LabelDecl(w2, UserLabel(l))), w3)
            && w3.labels == DropN(w2.labels, 1) && w3.tries == w2.tries && (w3.sound ==> w2.sound)
  {
    hide LowerList;
  }

  /** Entering a block that is not a try. */
  lemma EnterReady(ctx: Ctx, ctx1: Ctx, f: Frame, kind: LabelKind, params: seq<Type>, used: set<string>,
      ex: set<string>, tb: seq<Type>, ts: seq<Type>, w: Writer, below: seq<Value>, caught: Caught, m: Machine, s: Store)
    requires Ready(ctx, used, ex, tb, ts, w, below, caught, m, s) && EndsWith(ts, params) && kind != TryKindL
    requires f.name !in used && f.name != "" && |ctx.ks| == |w.labels| && |ctx.hs| == |w.tries|
    requires ctx1 == ctx.(ks := ctx1.ks) && |ctx1.ks| == |ctx.ks| + 1 && ctx.ks <= ctx1.ks
    ensures var n := |params|;
            var w0 := w.(ts := DropN(w.ts, n));
            var w1 := Enter(w0, f, kind, params);
            var rest := DropN(m.stack, n);
            && |w0.ts| == |below| + |rest| && tb <= w0.ts && w1.ts == w0.ts + params && w1.tries == w.tries
            && w0.ts == tb + ts[..|ts| - n]
            && Ready(ctx1, used + {f.name}, ex, w0.ts, params, w1, below + rest, caught,
                m.(stack := TopN(m.stack, n)), s)
            && Opened(ctx, ctx1, w, w1, LabelEntry(f, kind, |w0.ts|, |w.tries|, false), below, rest, used)
  {
    var w0 := w.(ts := DropN(w.ts, |params|));
    var w1 := Enter(w0, f, kind, params);
    EnterRel(ctx, ctx1, tb, ts, params, w, w1, below, caught, m, s);
    EnterStacks(w, w0, w1, f, kind, params, |below|, used);
    hide Rel, StacksOk, EndsWith;
  }

  /** Cutting the type stack back is what can be unsound about closing a block. */
  lemma PopSound(w2: Writer, w0: Writer, results: seq<Type>)
    ensures PopBlock(w2, w0, results).sound == ResetTs(w2, w0, results).sound == BeginCatches(w2, w0).sound
  {}

  /** The type stack after the body of a block that began at `w0`. */
  lemma AfterBody(cfg: Config, body: seq<Expr>, ex: set<string>, params: seq<Type>, results: seq<Type>, w0: Writer,
      w: Writer)
    requires w.ts == w0.ts + params && !w0.dead && !w.dead
        && TypeBody(cfg.env, body, Frames(w.labels), ex, params, results)
    requires ResetTs(LowerList(cfg, body, w).1, w0, results).sound
    ensures var w2 := LowerList(cfg, body, w).1;
            && w0.ts <= w2.ts && w2.sound && PopBlock(w2, w0, results).ts == w0.ts + results
                && PopBlock(w2, w0, results).tries == w2.tries
            && (TypeList(cfg.env, body, Frames(w.labels), ex, params).Live? ==> w2.ts == w0.ts + results)
  {
    var w2 := LowerList(cfg, body, w).1;
    FollowsPop(w2, w0, results);
    if TypeList(cfg.env, body, Frames(w.labels), ex, params).Live? { FollowsList(cfg, body, ex, w0.ts, params, w); }
    hide LowerList, TypeList;
  }

  // ----- what typing, lowering and evaluation say of each construct -----

  lemma BlockUnfold(ctx: Ctx, e: Expr, fs: seq<Frame>, ex: set<string>, ts: seq<Type>, w: Writer, caught: Caught,
      m: Machine, fuel: nat)
    requires e.Block? || (e.Try? && e.kind == PlainTry)
    requires TypeExpr(ctx.cfg.env, e, fs, ex, ts) != Ill
    ensures var (l, d, body) := (e.name, e.decl, e.body);
            var n := |d.sig.params|;
            && TypeExpr(ctx.cfg.env, e, fs, ex, ts).Live?
            && EndsWith(ts, d.sig.params) && TypeBody(ctx.cfg.env, body, fs + [Frame(l, d.sig.results)], ex,
                d.sig.params, d.sig.results)
            && LowerExpr(ctx.cfg, e, w) == LowerBlock(ctx.cfg, l, d, body, w)
            && Eval(ctx.cfg.env, ctx.host, e, caught, m, fuel) ==
                 Exit(EvalList(ctx.cfg.env, ctx.host, body, caught, m.(stack := TopN(m.stack, n)), fuel), l,
                     DropN(m.stack, n), |d.sig.results|)
  {
    hide LowerBlock;
  }

  lemma LoopUnfold(ctx: Ctx, e: Expr, fs: seq<Frame>, ex: set<string>, ts: seq<Type>, w: Writer, caught: Caught,
      m: Machine, fuel: nat)
    requires e.Loop? && TypeExpr(ctx.cfg.env, e, fs, ex, ts) != Ill
    ensures var sig := e.decl.sig;
            var n := |sig.params|;
            && TypeExpr(ctx.cfg.env, e, fs, ex, ts).Live?
            && EndsWith(ts, sig.params) && TypeBody(ctx.cfg.env, e.body, fs + [Frame(e.name, sig.params)], ex,
                sig.params, sig.results)
            && LowerExpr(ctx.cfg, e, w) == LowerLoop(ctx.cfg, e, w)
            && Eval(ctx.cfg.env, ctx.host, e, caught, m, fuel) ==
                 Exit(EvalLoop(ctx.cfg.env, ctx.host, e, caught, m.(stack := TopN(m.stack, n)), fuel), e.name,
                     DropN(m.stack, n), n)
  {
    hide LowerLoop;
  }

  lemma IfUnfold(ctx: Ctx, e: Expr, fs: seq<Frame>, ex: set<string>, ts: seq<Type>, w: Writer, caught: Caught,
      m: Machine, fuel: nat)
    requires e.If? && TypeExpr(ctx.cfg.env, e, fs, ex, ts) != Ill
    ensures var sig := e.decl.sig;
            var n := |sig.params|;
            var m1 := m.(stack := DropN(m.stack, 1));
            var m2 := m1.(stack := TopN(m1.stack, n));
            && TypeExpr(ctx.cfg.env, e, fs, ex, ts).Live?
            && |ts| >= 1 && EndsWith(ts, [I32]) && EndsWith(ts[..|ts| - 1], sig.params)
            && TypeBody(ctx.cfg.env, e.thn, fs + [Frame(e.name, sig.results)], ex, sig.params, sig.results)
            && TypeBody(ctx.cfg.env, e.els, fs + [Frame(e.name, sig.results)], ex, sig.params, sig.results)
            && LowerExpr(ctx.cfg, e, w) == LowerIf(ctx.cfg, e, w)
            && Eval(ctx.cfg.env, ctx.host, e, caught, m, fuel) ==
                 Exit(EvalList(ctx.cfg.env, ctx.host, if Peek(m.stack, 0).bits != 0 then e.thn else e.els, caught, m2,
                     fuel),
                      e.name, DropN(m1.stack, n), |sig.results|)
  {
    hide LowerIf;
  }

  lemma TryUnfold(ctx: Ctx, e: Expr, w: Writer, caught: Caught, m: Machine, fuel: nat)
    requires e.Try? && e.kind != PlainTry
    ensures var n := |e.decl.sig.params|;
            var r := |e.decl.sig.results|;
            var o := Exit(EvalList(ctx.cfg.env, ctx.host, e.body, caught, m.(stack := TopN(m.stack, n)), fuel),
                e.name, DropN(m.stack, n), r);
            && LowerExpr(ctx.cfg, e, w) == LowerTry(ctx.cfg, e, w)
            && Eval(ctx.cfg.env, ctx.host, e, caught, m, fuel) ==
                 if !o.Raise? then o
                 else if e.kind == DelegateTry then Delegated(TargetOf(e.delegate), o.x, o.m)
                 else Exit(EvalHandler(ctx.cfg.env, ctx.host, e.catches, e.name, o.x, caught, o.m, fuel), e.name,
                     DropN(m.stack, n), r)
  {
    hide LowerTry;
  }

  // ----- loops -----

  lemma LoopParts(ctx: Ctx, ctx1: Ctx, e: Expr, used: set<string>, w: Writer, k: Code)
    requires e.Loop? && e.body != [] && Fresh(e.body, used + {e.name}) && e.name !in used && w.labels != []
    requires Placed(ctx, LowerLoop(ctx.cfg, e, w).0, LowerLoop(ctx.cfg, e, w).1, k)
    requires var sig := e.decl.sig;
             var w1 := Enter(w.(ts := DropN(w.ts, |sig.params|)), Frame(e.name, sig.params), LoopKind, sig.params);
             ctx1 == ctx.(ks := ctx.ks + [Append(LowerList(ctx.cfg, e.body, w1).0, k)])
    ensures var sig := e.decl.sig;
            var w0 := w.(ts := DropN(w.ts, |sig.params|));
            var w1 := Enter(w0, Frame(e.name, sig.params), LoopKind, sig.params);
            var (c, w2) := LowerList(ctx.cfg, e.body, w1);
            && LowerLoop(ctx.cfg, e, w) == (Cons(LabelHere(UserLabel(e.name), false), c), PopBlock(w2, w0, sig.results))
            && Grown(w1, w2) && Placed(ctx1, c, w2, k)
  {
    var (l, sig) := (e.name, e.decl.sig);
    var w0 := w.(ts := DropN(w.ts, |sig.params|));
    var w1 := Enter(w0, Frame(l, sig.params), LoopKind, sig.params);
    var (c, w2) := LowerList(ctx.cfg, e.body, w1);
    hide LowerList, Fresh;
    GrownList(ctx.cfg, e.body, w1);
    assert w1.labels[|w.labels|] == LabelEntry(Frame(l, sig.params), LoopKind, |w0.ts|, |w0.tries|, false);
    assert w2.labels[|w.labels|].frame.name == l;
    ListLabels(ctx.cfg, e.body, w1);
    FreshDisjoint(e.body, used + {l});
    WithinDisjoint(Labels(c), {UserLabel(l)}, Names(e.body), {l});
    LocatedTail(ctx.p, LabelHere(UserLabel(l), false), c, k);
    LocatedHere(ctx.p, UserLabel(l), false, c, k);
    JumpsInner(ctx, ctx1, Append(c, k), w2, PopBlock(w2, w0, sig.results));
  }

  /** A branch back to a loop starts its body again. */
  lemma BackEdge(ctx: Ctx, used: set<string>, ex: set<string>, tb: seq<Type>, params: seq<Type>, w: Writer,
      below: seq<Value>, caught: Caught, m: Machine, m1: Machine, s: Store, c: Conf)
    requires Ready(ctx, used, ex, tb, params, w, below, caught, m, s) && |w.labels| > 0
    requires var e := w.labels[|w.labels| - 1];
            e.frame.sig == params && e.typeStackSize == |tb| && e.tryStackSize == |w.tries|
    requires BranchRel(ctx, w, |w.labels| - 1, below, caught, m1, c)
    ensures Ready(ctx, used, ex, tb, params, w, below, caught, m1.(stack := TopN(m1.stack, |params|)), c.s)
  {
    assert w.ts[..|tb|] + params == w.ts;
    assert below[..|tb|] == below;
    assert w.tries[..|w.tries|] == w.tries;
  }

  lemma NoOwnBranch(env: Env, host: Host, e: Expr, caught: Caught, m: Machine, fuel: nat)
    requires e.Loop?
    ensures var o := EvalLoop(env, host, e, caught, m, fuel); !(o.Branch? && o.to == ToLabel(e.name))
    decreases fuel
  {
    var o := EvalList(env, host, e.body, caught, m, fuel);
    if o.Branch? && o.to == ToLabel(e.name) && fuel > 0 {
      NoOwnBranch(env, host, e, caught, o.m.(stack := TopN(o.m.stack, |e.decl.sig.params|)), fuel - 1);
    }
  }

  // ----- conditionals -----

  lemma IfParts(ctx: Ctx, ctx1: Ctx, e: Expr, used: set<string>, w: Writer, k: Code)
    requires e.If? && FreshExpr(e, used) && w.labels != []
    requires Placed(ctx, LowerIf(ctx.cfg, e, w).0, LowerIf(ctx.cfg, e, w).1, k)
    requires ctx1 == ctx.(ks := ctx.ks + [k])
    ensures var sig := e.decl.sig;
            var w0 := w.(ts := DropN(DropN(w.ts, 1), |sig.params|));
            var w1 := Enter(w0, Frame(e.name, sig.results), IfKind, sig.params);
            var (c1, w2) := LowerList(ctx.cfg, e.thn, w1);
            var w2' := ResetTs(w2, w0, sig.params);
            var (c2, w3) := LowerList(ctx.cfg, e.els, w2');
            var decl := LabelDecl(w3, UserLabel(e.name));
            && LowerIf(ctx.cfg, e, w).0 == Cons(IfElse(VarX(StackVar(w.ts, 0)), c1, c2), decl)
            && LowerIf(ctx.cfg, e, w).1.labels == DropN(w3.labels, 1) && LowerIf(ctx.cfg, e, w).1.tries == w3.tries
            && Grown(w1, w2) && Grown(w2', w3)
            && Placed(ctx1, c1, w2, Append(decl, k)) && Placed(ctx1, c2, w3, Append(decl, k))
                && Lands(Append(decl, k), k)
            && w2'.sound && PopBlock(w3, w0, sig.results).sound
  {
    hide LowerList, LowerIf, Within, LabelDecl, Lands, Labels, Located, Fresh, FreshExpr, StackVar, PopBlock, Grown,
        Find;
    var (l, sig) := (e.name, e.decl.sig);
    var w0 := w.(ts := DropN(DropN(w.ts, 1), |sig.params|));
    var w1 := Enter(w0, Frame(l, sig.results), IfKind, sig.params);
    var (c1, w2) := LowerList(ctx.cfg, e.thn, w1);
    var w2' := ResetTs(w2, w0, sig.params);
    var (c2, w3) := LowerList(ctx.cfg, e.els, w2');
    var decl := LabelDecl(w3, UserLabel(l));
    IfLayout(ctx.cfg, e, w);
    ListLabels(ctx.cfg, e.thn, w1);
    ListLabels(ctx.cfg, e.els, w2');
    DeclLands(w3, UserLabel(l), k);
    GrownList(ctx.cfg, e.thn, w1);
    GrownList(ctx.cfg, e.els, w2');
    GrownReset(w2, w0, sig.params);
    TopName(w, w1, w2, l);
    TopName(w, w1, w3, l) by { GrownTrans(w1, w2, w2'); GrownTrans(w1, w2', w3); }
    IfLocated(ctx.p, VarX(StackVar(w.ts, 0)), e, used, c1, c2, decl, k);
    if TopLabelUsed(w3) { DeclFound(ctx.p, w3, UserLabel(l), k); }
    JumpsInner(ctx, ctx1, k, w3, LowerIf(ctx.cfg, e, w).1);
    JumpsEarlier(ctx1, w2', w3);
    JumpsEarlier(ctx1, w2, w2');
  }

  /** The innermost label keeps its name. */
  lemma TopName(w: Writer, w1: Writer, w2: Writer, l: string)
    requires Grown(w1, w2) && |w1.labels| == |w.labels| + 1 && w1.labels[|w.labels|].frame.name == l
    ensures |w2.labels| == |w.labels| + 1 && w2.labels[|w.labels|].frame.name == l
  {
    assert w2.labels[|w.labels|].frame == w1.labels[|w.labels|].frame;
  }

  lemma IfLocated(p: Prog, x: CExpr, e: Expr, used: set<string>, c1: Code, c2: Code, decl: Code, k: Code)
    requires e.If? && FreshExpr(e, used) && Located(p, Cons(IfElse(x, c1, c2), decl), k)
    requires Within(Labels(c1), Names(e.thn)) && Within(Labels(c2), Names(e.els)) && Within(Labels(decl), {e.name})
    ensures Located(p, c1, Append(decl, k)) && Located(p, c2, Append(decl, k)) && Located(p, decl, k)
  {
    var l := e.name;
    FreshDisjoint(e.thn, used + {l});
    FreshDisjoint(e.els, used + {l} + Names(e.thn));
    WithinDisjoint(Labels(c1), Labels(decl), Names(e.thn), {l});
    WithinDisjoint(Labels(c2), Labels(decl), Names(e.els), {l});
    WithinDisjoint(Labels(c1), Labels(c2), Names(e.thn), Names(e.els));
    hide Located;
    LocatedArms(p, IfElse(x, c1, c2), decl, k);
  }

  /** An absent else part is written like an empty one. */
  lemma IfLayout(cfg: Config, e: Expr, w: Writer)
    requires e.If?
    ensures var sig := e.decl.sig;
            var w0 := w.(ts := DropN(DropN(w.ts, 1), |sig.params|));
            var (c1, w2) := LowerList(cfg, e.thn, Enter(w0, Frame(e.name, sig.results), IfKind, sig.params));
            var (c2, w3) := LowerList(cfg, e.els, ResetTs(w2, w0, sig.params));
            var r := LowerIf(cfg, e, w);
            && r.0 == Cons(IfElse(VarX(StackVar(w.ts, 0)), c1, c2), LabelDecl(w3, UserLabel(e.name)))
            && r.1.labels == DropN(w3.labels, 1) && r.1.tries == w3.tries
            && (r.1.sound ==> w3.sound && PopBlock(w3, w0, sig.results).sound)
  {
    hide ShapeOf;
  }

  // ----- tries -----

  /** The writer's state while a try's clauses are open, up to marks. */
  function CatchEntry(w: Writer, w0: Writer, l: string, results: seq<Type>): LabelEntry {
    LabelEntry(Frame(l, results), CatchKind, |w0.ts|, |w.tries|, false)
  }

  lemma EnterTryReady(ctx: Ctx, ctx1: Ctx, h: Code, handler: Code, l: string, params: seq<Type>, results: seq<Type>,
      used: set<string>, ex: set<string>, tb: seq<Type>, ts: seq<Type>, w: Writer, below: seq<Value>, caught: Caught,
      m: Machine, s: Store)
    requires Ready(ctx, used, ex, tb, ts, w, below, caught, m, s) && EndsWith(ts, params)
    requires l !in used && l != "" && |ctx.ks| == |w.labels| && |ctx.hs| == |w.tries|
    requires ctx1 == ctx.(ks := ctx1.ks, hs := ctx.hs + [h]) && |ctx1.ks| == |ctx.ks| + 1 && ctx.ks <= ctx1.ks
        && Lands(handler, h)
    ensures var n := |params|;
            var w0 := w.(ts := DropN(w.ts, n));
            var w1 := EnterTry(w0, Frame(l, results), params);
            var rest := DropN(m.stack, n);
            && |w0.ts| == |below| + |rest| && tb <= w0.ts && w1.ts == w0.ts + params
            && w0.ts == tb + ts[..|ts| - n]
            && Ready(ctx1, used + {l}, ex, w0.ts, params, w1, below + rest, caught, m.(stack := TopN(m.stack, n)),
                TryOpened(l, handler, s))
            && Opened(ctx, ctx1, w, w1, LabelEntry(Frame(l, results), TryKindL, |w0.ts|, |w.tries|, false), below,
                rest, used)
  {
    hide EndsWith, TryVars, ValsAt, DataRel, SavedOk, HostOk, CaughtOk, Lands, TryOpened, StacksOk;
    var w0 := w.(ts := DropN(w.ts, |params|));
    var w1 := EnterTry(w0, Frame(l, results), params);
    EnterTryRel(ctx, ctx1, h, handler, tb, ts, params, w, w1, l, used, below, caught, m, s);
    EnterStacks(w, w0, w1, Frame(l, results), TryKindL, params, |below|, used);
    hide Rel;
  }

  /** After a try's body the writer is in the state of its clauses, up to marks. */
  lemma BeginCatchesGrown(w: Writer, w0: Writer, w1: Writer, w2: Writer, l: string, params: seq<Type>,
      results: seq<Type>)
    requires w0 == w.(ts := w0.ts) && w1 == EnterTry(w0, Frame(l, results), params) && Grown(w1, w2) && w0.ts <= w2.ts
    ensures var wc := w0.(labels := w.labels + [CatchEntry(w, w0, l, results)]);
            var w3 := BeginCatches(w2, w0);
            && Grown(wc, PopTry(w3)) && w3.ts == w0.ts
            && |w3.labels| == |w.labels| + 1 && |w3.tries| == |w.tries| + 1 && w3.tries == w2.tries
            && (forall i {:trigger w3.labels[i]} {:trigger w2.labels[i]} | 0 <= i < |w.labels| ::
                w3.labels[i] == w2.labels[i] && w3.labels[i] == w.labels[i].(used := w3.labels[i].used))
            && w3.labels[|w.labels|] == w2.labels[|w.labels|].(kind := CatchKind)
                && w3.labels[|w.labels|].frame == Frame(l, results)
            && w3.tries[|w.tries|].name == l
            && (forall j {:trigger w3.tries[j]} | 0 <= j < |w.tries| :: w3.tries[j].name == w.tries[j].name)
  {
    var wc := w0.(labels := w.labels + [CatchEntry(w, w0, l, results)]);
    var w3 := BeginCatches(w2, w0);
    var k := |w.labels|;
    assert w1.labels[k] == LabelEntry(Frame(l, results), TryKindL, |w0.ts|, |w.tries|, false);
    assert w2.labels[k].frame == w1.labels[k].frame;
    assert w1.tries[|w.tries|].name == l && w2.tries[|w.tries|].name == l;
    forall i | 0 <= i < k
      ensures w3.labels[i] == w2.labels[i] && w3.labels[i] == w.labels[i].(used := w3.labels[i].used)
          && (w.labels[i].used ==> w3.labels[i].used)
    {
      assert w1.labels[i] == w.labels[i] && w2.labels[i] == w1.labels[i].(used := w2.labels[i].used);
    }
    forall j | 0 <= j < |w.tries| ensures w3.tries[j].name == w.tries[j].name
        && (w.tries[j].used ==> w3.tries[j].used) {
      assert w1.tries[j] == w.tries[j] && w2.tries[j].name == w1.tries[j].name;
    }
  }

  lemma HandlerLands(w2: Writer, l: string, hc: Code, kk: Code)
    ensures Lands(Append(Append(Landing(w2, l), hc), kk), Append(hc, kk))
  {
    AppendOne(LabelHere(CatchLabel(l), true), hc);
  }

  /** A try's own catch label leads to its handler. */
  lemma LandingFound(p: Prog, w2: Writer, l: string, hc: Code, kk: Code)
    requires Located(p, Append(Landing(w2, l), hc), kk) && TryUsed(w2)
    ensures Find(CatchLabel(l), p.body, Nil) == Some(Append(hc, kk))
  {
    AppendOne(LabelHere(CatchLabel(l), true), hc);
    LocatedHere(p, CatchLabel(l), true, hc, kk);
  }

  /** Where the parts of a try stand: `hc` is its handler after the landing label. */
  lemma TryLayout(p: Prog, l: string, c1: Code, w2: Writer, hc: Code, decl: Code, k: Code, n1: set<string>,
      n2: set<string>)
    requires Located(p, TryCode(l, c1, Append(Landing(w2, l), hc), decl), k)
    requires Within(Labels(c1), n1) && Within(Labels(hc), n2) && n1 !! n2 && l !in n1 && l !in n2
    requires Labels(decl) <= {UserLabel(l)}
    ensures var kk := Append(decl, k);
            && Located(p, c1, Cons(UnwindOuter(l), kk)) && Located(p, hc, kk) && Located(p, decl, k)
            && Located(p, Append(Landing(w2, l), hc), kk)
  {
    hide Located, Append, Landing, Labels, StmtLabels, Within;
    var kk := Append(decl, k);
    var body := Append(c1, One(UnwindOuter(l)));
    var land := Landing(w2, l);
    var handler := Append(land, hc);
    var inner := Cons(UnwindTo(l), body);
    TryLabelsApart(l, c1, w2, hc, decl, n1, n2);
    LocatedArms(p, IfTry(l, inner, handler), decl, k);
    LocatedTail(p, UnwindTo(l), body, kk);
    LocatedAppend(p, c1, One(UnwindOuter(l)), kk);
    AppendOne(UnwindOuter(l), kk);
    LocatedAppend(p, land, hc, kk);
  }

  lemma TryLabelsApart(l: string, c1: Code, w2: Writer, hc: Code, decl: Code, n1: set<string>, n2: set<string>)
    requires Within(Labels(c1), n1) && Within(Labels(hc), n2) && n1 !! n2 && l !in n1 && l !in n2
    requires Labels(decl) <= {UserLabel(l)}
    ensures var body := Append(c1, One(UnwindOuter(l)));
            var handler := Append(Landing(w2, l), hc);
            var inner := Cons(UnwindTo(l), body);
            && StmtLabels(UnwindTo(l)) == {}
            && Labels(One(UnwindOuter(l))) == {} && Labels(Landing(w2, l)) !! Labels(hc)
            && Labels(inner) == Labels(body) && Labels(inner) !! Labels(handler) && Labels(inner) !! Labels(decl)
                && Labels(handler) !! Labels(decl)
  {
    var land := Landing(w2, l);
    assert Labels(land) <= {CatchLabel(l)};
    LabelsAppend(c1, One(UnwindOuter(l)));
    assert Labels(One(UnwindOuter(l))) == {};
    LabelsAppend(land, hc);
    assert forall x | x in Labels(c1) :: x.name in n1;
    assert forall x | x in Labels(hc) :: x.name in n2;
  }

  lemma CatchLayout(cfg: Config, e: Expr, w: Writer)
    requires e.Try? && e.kind == CatchTry
    ensures var (l, sig) := (e.name, e.decl.sig);
            var w0 := w.(ts := DropN(w.ts, |sig.params|));
            var (c1, w2) := LowerList(cfg, e.body, EnterTry(w0, Frame(l, sig.results), sig.params));
            var (c2, w4) := LowerCatches(cfg, e.catches, w0, PopTry(BeginCatches(w2, w0)));
            LowerTry(cfg, e, w) ==
              (TryCode(l, c1, Append(Landing(w2, l), Cons(UnwindOuter(l), Append(SaveCode(cfg, l), c2))),
                  LabelDecl(w4, UserLabel(l))),
               Braced(PopBlock(w4, w0, sig.results), [c2]))
  {
    hide LowerList, LowerCatches, LowerDelegate, ShapeOf;
  }

  lemma DelegateLayout(cfg: Config, e: Expr, w: Writer)
    requires e.Try? && e.kind == DelegateTry
    ensures var (l, sig) := (e.name, e.decl.sig);
            var w0 := w.(ts := DropN(w.ts, |sig.params|));
            var (c1, w2) := LowerList(cfg, e.body, EnterTry(w0, Frame(l, sig.results), sig.params));
            var (c2, w4) := LowerDelegate(e.delegate, BeginCatches(w2, w0));
            LowerTry(cfg, e, w) ==
              (TryCode(l, c1, Append(Landing(w2, l), c2), LabelDecl(w4, UserLabel(l))),
                  PopBlock(PopTry(w4), w0, sig.results))
  {
    hide LowerList, LowerCatches, LowerDelegate;
  }

  /** The code of a try's handler, the writer's state at its end, and after the try. */
  function TryEnd(cfg: Config, e: Expr, w0: Writer, w2: Writer): (Code, Writer, Writer)
    requires e.Try?
  {
    var w3 := BeginCatches(w2, w0);
    if e.kind == CatchTry then
      var (c2, w4) := LowerCatches(cfg, e.catches, w0, PopTry(w3));
      (Cons(UnwindOuter(e.name), Append(SaveCode(cfg, e.name), c2)), w4,
          Braced(PopBlock(w4, w0, e.decl.sig.results), [c2]))
    else
      var (c2, w4) := LowerDelegate(e.delegate, w3);
      (c2, w4, PopBlock(PopTry(w4), w0, e.decl.sig.results))
  }

  /** The context inside a try's body: its end label, and its handler after the landing label. */
  function TryCtx(ctx: Ctx, k: Code, h: Code): Ctx { ctx.(ks := ctx.ks + [k], hs := ctx.hs + [h]) }

  function BlockCtx(ctx: Ctx, k: Code): Ctx { ctx.(ks := ctx.ks + [k]) }

  lemma TryLayoutIs(cfg: Config, e: Expr, w: Writer)
    requires e.Try? && e.kind != PlainTry
    ensures var (l, sig) := (e.name, e.decl.sig);
            var w0 := w.(ts := DropN(w.ts, |sig.params|));
            var (c1, w2) := LowerList(cfg, e.body, EnterTry(w0, Frame(l, sig.results), sig.params));
            var (hc, w4, w5) := TryEnd(cfg, e, w0, w2);
            LowerTry(cfg, e, w) == (TryCode(l, c1, Append(Landing(w2, l), hc), LabelDecl(w4, UserLabel(l))), w5)
  {
    hide LowerList, LowerCatches, LowerDelegate, LowerTry;
    if e.kind == CatchTry { CatchLayout(cfg, e, w); } else { DelegateLayout(cfg, e, w); }
  }

  /** The labels in a try's handler belong to its clauses. */
  lemma HandlerLabels(cfg: Config, e: Expr, w0: Writer, w2: Writer)
    requires e.Try?
    ensures Within(Labels(TryEnd(cfg, e, w0, w2).0), CatchNames(e.catches))
  {
    hide LowerCatches, LowerDelegate;
    var w3 := BeginCatches(w2, w0);
    if e.kind == CatchTry {
      CatchesLabels(cfg, e.catches, w0, PopTry(w3));
      var c2 := LowerCatches(cfg, e.catches, w0, PopTry(w3)).0;
      LabelsAppend(SaveCode(cfg, e.name), c2);
      assert Labels(SaveCode(cfg, e.name)) == {};
    } else {
      DelegateLabels(e.delegate, w3);
    }
  }

  /** Marks made in the body and handler of a try are still there after it. */
  lemma TryMarks(cfg: Config, e: Expr, w0: Writer, w2: Writer)
    requires e.Try? && w2.labels != [] && w2.tries != []
    ensures var (hc, w4, w5) := TryEnd(cfg, e, w0, w2);
            var n, d := |w2.labels| - 1, |w2.tries| - 1;
            && |w5.labels| == n && |w4.labels| == n + 1 && |w5.tries| == d && w5.labels == DropN(w4.labels, 1)
            && (e.kind == CatchTry ==> w5.tries == w4.tries && Grown(PopTry(BeginCatches(w2, w0)), w4))
            && (e.kind != CatchTry ==> w5.tries == DropN(LowerDelegate(e.delegate, BeginCatches(w2, w0)).1.tries, 1))
            && (forall i {:trigger w2.labels[i]} {:trigger w5.labels[i]} | 0 <= i < n ::
                w5.labels[i].frame == w2.labels[i].frame && (w2.labels[i].used ==> w5.labels[i].used))
            && (forall j {:trigger w2.tries[j]} {:trigger w5.tries[j]} | 0 <= j < d ::
                w5.tries[j].name == w2.tries[j].name && (w2.tries[j].used ==> w5.tries[j].used))
            && w4.labels[n].frame == w2.labels[n].frame && (w2.labels[n].used ==> w4.labels[n].used)
            && (w4.sound ==> w2.sound && BeginCatches(w2, w0).sound)
                && (w5.sound ==> w4.sound && ResetTs(w4, w0, e.decl.sig.results).sound)
  {
    hide LowerCatches, LowerDelegate, ShapeOf;
    var w3 := BeginCatches(w2, w0);
    var (hc, w4, w5) := TryEnd(cfg, e, w0, w2);
    var n, d := |w2.labels| - 1, |w2.tries| - 1;
    var wh := if e.kind == CatchTry then PopTry(w3) else w3;
    if e.kind == CatchTry { GrownCatches(cfg, e.catches, w0, PopTry(w3)); } else { GrownDelegate(e.delegate, w3); }
    assert Grown(wh, w4);
    forall i | 0 <= i < n ensures w5.labels[i].frame == w2.labels[i].frame
        && (w2.labels[i].used ==> w5.labels[i].used) {
      assert w3.labels[i] == w2.labels[i] && w4.labels[i] == w3.labels[i].(used := w4.labels[i].used)
          && w5.labels[i] == w4.labels[i];
    }
    forall j | 0 <= j < d ensures w5.tries[j].name == w2.tries[j].name && (w2.tries[j].used ==> w5.tries[j].used) {
      assert wh.tries[j] == w2.tries[j] && w4.tries[j].name == wh.tries[j].name && w5.tries[j] == w4.tries[j];
    }
    assert w4.labels[n] == w3.labels[n].(used := w4.labels[n].used);
  }

  /** Where the parts of a try stand, and which jumps into them are known. */
  lemma TryParts(ctx: Ctx, e: Expr, used: set<string>, w: Writer, k: Code)
    requires e.Try? && e.kind != PlainTry && FreshExpr(e, used) && w.labels != []
    requires Placed(ctx, LowerTry(ctx.cfg, e, w).0, LowerTry(ctx.cfg, e, w).1, k)
    ensures var (l, sig) := (e.name, e.decl.sig);
            var w0 := w.(ts := DropN(w.ts, |sig.params|));
            var w1 := EnterTry(w0, Frame(l, sig.results), sig.params);
            var (c1, w2) := LowerList(ctx.cfg, e.body, w1);
            var (hc, w4, w5) := TryEnd(ctx.cfg, e, w0, w2);
            var kk := Append(LabelDecl(w4, UserLabel(l)), k);
            && LowerTry(ctx.cfg, e, w) == (TryCode(l, c1, Append(Landing(w2, l), hc), LabelDecl(w4, UserLabel(l))), w5)
            && Grown(w1, w2) && Placed(TryCtx(ctx, k, Append(hc, kk)), c1, w2, Cons(UnwindOuter(l), kk))
            && Located(ctx.p, hc, kk) && Lands(kk, k) && JumpsOk(ctx, w5) && |ctx.ks| == |w.labels|
                && |ctx.hs| == |w.tries|
            && (e.kind == CatchTry ==> JumpsOk(BlockCtx(ctx, k), w4)) && w5.sound && w4.sound
                && BeginCatches(w2, w0).sound
  {
    hide LowerList, LowerTry, Fresh, FreshCatches, Within, LabelDecl, Landing, Lands, TryEnd, TryCode, Located,
        Append, Labels, Find, BeginCatches, LowerDelegate;
    var (l, sig) := (e.name, e.decl.sig);
    var w0 := w.(ts := DropN(w.ts, |sig.params|));
    var w1 := EnterTry(w0, Frame(l, sig.results), sig.params);
    var (c1, w2) := LowerList(ctx.cfg, e.body, w1);
    var (hc, w4, w5) := TryEnd(ctx.cfg, e, w0, w2);
    var decl := LabelDecl(w4, UserLabel(l));
    var kk := Append(decl, k);
    TryLayoutIs(ctx.cfg, e, w);
    GrownList(ctx.cfg, e.body, w1);
    assert w1.labels[|w.labels|].frame.name == l && w1.tries[|w.tries|].name == l;
    assert w2.labels[|w.labels|].frame.name == l && w2.tries[|w.tries|].name == l;
    TryMarks(ctx.cfg, e, w0, w2);
    TryFound(ctx.p, ctx.cfg, e, used, w1, w2, c1, hc, w4, w5, w0, k);
    JumpsTry(ctx, TryCtx(ctx, k, Append(hc, kk)), k, Append(hc, kk), w2, w5);
    if e.kind == CatchTry { JumpsInner(ctx, BlockCtx(ctx, k), k, w4, w5); }
  }

  lemma TryFound(p: Prog, cfg: Config, e: Expr, used: set<string>, w1: Writer, w2: Writer, c1: Code, hc: Code,
      w4: Writer, w5: Writer, w0: Writer, k: Code)
    requires e.Try? && FreshExpr(e, used)
    requires (c1, w2) == LowerList(cfg, e.body, w1) && (hc, w4, w5) == TryEnd(cfg, e, w0, w2)
    requires Located(p, TryCode(e.name, c1, Append(Landing(w2, e.name), hc), LabelDecl(w4, UserLabel(e.name))), k)
    ensures var kk := Append(LabelDecl(w4, UserLabel(e.name)), k);
            && Located(p, c1, Cons(UnwindOuter(e.name), kk)) && Located(p, hc, kk) && Lands(kk, k)
            && (TopLabelUsed(w4) ==> Find(UserLabel(e.name), p.body, Nil) == Some(k))
            && (TryUsed(w2) ==> Find(CatchLabel(e.name), p.body, Nil) == Some(Append(hc, kk)))
  {
    hide LowerList, Fresh, FreshCatches, Within, Landing, Lands, TryEnd, TryCode, Located, Append, Find;
    var l := e.name;
    var decl := LabelDecl(w4, UserLabel(l));
    var n1, n2 := Names(e.body), CatchNames(e.catches);
    ListLabels(cfg, e.body, w1);
    HandlerLabels(cfg, e, w0, w2);
    FreshDisjoint(e.body, used + {l});
    FreshCatchesDisjoint(e.catches, used + {l} + n1);
    DeclLands(w4, UserLabel(l), k);
    assert Labels(decl) <= {UserLabel(l)};
    hide LabelDecl, Labels, Names, CatchNames;
    TryLayout(p, l, c1, w2, hc, decl, k, n1, n2);
    if TopLabelUsed(w4) { DeclFound(p, w4, UserLabel(l), k); }
    if TryUsed(w2) { LandingFound(p, w2, l, hc, Append(decl, k)); }
  }
}

/** Meaning preservation: the code written for an expression list simulates it, for every
    outcome, including branches, exceptions, traps and running out of fuel. */
module LoweringCorrect {
  import opened Ir
  import opened Wasm
  import opened Typing
  import opened CLang
  import opened Lowering
  import opened LoweringShape
  import opened LoweringRel
  import opened LoweringInstr
  import opened LoweringBranch
  import opened LoweringScope
  import opened LoweringLeaf
  import opened LoweringTry
  import opened LoweringParts

  lemma {:induction false} SimList(ctx: Ctx, es: seq<Expr>, used: set<string>, ex: set<string>, tb: seq<Type>,
      ts: seq<Type>, w: Writer, below: seq<Value>, caught: Caught, m: Machine, k: Code, s: Store, fuel: nat)
    returns (n: nat, c: Conf)
    requires TypeList(ctx.cfg.env, es, Frames(w.labels), ex, ts) != Ill
    requires Fresh(es, used) && Rethrown(es) <= ctx.cfg.rethrown
    requires Ready(ctx, used, ex, tb, ts, w, below, caught, m, s)
    requires Placed(ctx, LowerList(ctx.cfg, es, w).0, LowerList(ctx.cfg, es, w).1, k)
    ensures c == Steps(ctx.host, ctx.p, Running(Append(LowerList(ctx.cfg, es, w).0, k), s), n)
    ensures Arrived(ctx, w, LowerList(ctx.cfg, es, w).1, below, caught,
        EvalList(ctx.cfg.env, ctx.host, es, caught, m, fuel), k, n, fuel, c)
    ensures EvalList(ctx.cfg.env, ctx.host, es, caught, m, fuel).Next? ==>
        TypeList(ctx.cfg.env, es, Frames(w.labels), ex, ts).Live?
    decreases fuel, es, 0
  {
    hide Ready, Placed, Arrived, Append, LowerExpr, TypeExpr, Eval, Steps, Grown, StacksOk, Ends, RethrownBy, FreshExpr;
    if es == [] {
      n, c := EmptyList(ctx, used, ex, tb, ts, w, below, caught, m, k, s, fuel);
    } else {
      var e := es[0];
      var (c1, w1) := LowerExpr(ctx.cfg, e, w);
      if Ends(e) {
        n, c := SimExpr(ctx, e, used, ex, tb, ts, w, below, caught, m, k, s, fuel);
        LeavesNot(ctx.cfg.env, e, Frames(w.labels), ex, ts);
      } else {
        ListParts(ctx, es, used, w, k);
        var (c2, w2) := LowerList(ctx.cfg, es[1..], w1);
        n, c := SimExpr(ctx, e, used, ex, tb, ts, w, below, caught, m, Append(c2, k), s, fuel);
        var o := Eval(ctx.cfg.env, ctx.host, e, caught, m, fuel);
        if o.Next? {
          var r := TypeExpr(ctx.cfg.env, e, Frames(w.labels), ex, ts);
          LiveGoesOn(ctx.cfg.env, e, Frames(w.labels), ex, ts);
          NextReady(ctx, e, used, ex, tb, ts, w, below, caught, m, o.m, Append(c2, k), s, n, fuel, c);
          var n2, c' := SimList(ctx, es[1..], used + ExprNames(e), ex, tb, r.ts, w1, below, caught, o.m, k, c.s, fuel);
          ListNext(ctx, es, used, ex, tb, ts, r.ts, w, w1, w2, below, caught, m, o.m, Append(c2, k), k, s, n, n2,
              fuel, c, c');
          n, c := n + n2, c';
        } else {
          ArrivedAny(ctx, w, w1, w2, below, caught, o, Append(c2, k), k, n, fuel, c);
        }
      }
    }
  }

  lemma EmptyList(ctx: Ctx, used: set<string>, ex: set<string>, tb: seq<Type>, ts: seq<Type>, w: Writer,
      below: seq<Value>, caught: Caught, m: Machine, k: Code, s: Store, fuel: nat)
    returns (n: nat, c: Conf)
    requires Ready(ctx, used, ex, tb, ts, w, below, caught, m, s)
    ensures c == Steps(ctx.host, ctx.p, Running(Append(Nil, k), s), n)
    ensures Arrived(ctx, w, w, below, caught, Next(m), k, n, fuel, c)
  {
    n, c := 0, Running(k, s);
  }

  lemma LeavesNot(env: Env, e: Expr, fs: seq<Frame>, ex: set<string>, ts: seq<Type>)
    requires Leaves(e)
    ensures !TypeExpr(env, e, fs, ex, ts).Live?
  {}

  lemma ArrivedAny(ctx: Ctx, w: Writer, w1: Writer, w2: Writer, below: seq<Value>, caught: Caught, o: Outcome,
      k: Code, k1: Code, n: nat, fuel: nat, c: Conf)
    requires Arrived(ctx, w, w1, below, caught, o, k, n, fuel, c) && !o.Next?
    ensures Arrived(ctx, w, w2, below, caught, o, k1, n, fuel, c)
  {}

  /** After an expression that falls through, the rest of its list is ready to run. */
  lemma NextReady(ctx: Ctx, e: Expr, used: set<string>, ex: set<string>, tb: seq<Type>, ts: seq<Type>, w: Writer,
      below: seq<Value>, caught: Caught, m: Machine, m1: Machine, k: Code, s: Store, n: nat, fuel: nat, c: Conf)
    requires Ready(ctx, used, ex, tb, ts, w, below, caught, m, s)
    requires TypeExpr(ctx.cfg.env, e, Frames(w.labels), ex, ts).Live?
    requires Arrived(ctx, w, LowerExpr(ctx.cfg, e, w).1, below, caught, Next(m1), k, n, fuel, c)
    requires LowerExpr(ctx.cfg, e, w).1.sound
    ensures var w1 := LowerExpr(ctx.cfg, e, w).1;
            Frames(w1.labels) == Frames(w.labels) && c.Running? && c.code == k
            && w1.ts == tb + TypeExpr(ctx.cfg.env, e, Frames(w.labels), ex, ts).ts
            && Ready(ctx, used + ExprNames(e), ex, tb, TypeExpr(ctx.cfg.env, e, Frames(w.labels), ex, ts).ts, w1,
                below, caught, m1, c.s)
  {
    hide LowerExpr, TypeExpr, Rel, StacksOk, ExprNames, HostOk, CaughtOk;
    var w1 := LowerExpr(ctx.cfg, e, w).1;
    FollowsExpr(ctx.cfg, e, ex, tb, ts, w);
    GrownExpr(ctx.cfg, e, w);
    GrownFrames(w, w1);
    hide Grown;
    StacksGrown(w, w1, |below|, used);
    StacksMore(w1, |below|, used, used + ExprNames(e));
  }

  lemma ListNext(ctx: Ctx, es: seq<Expr>, used: set<string>, ex: set<string>, tb: seq<Type>, ts: seq<Type>,
      ts1: seq<Type>, w: Writer, w1: Writer, w2: Writer, below: seq<Value>, caught: Caught, m: Machine, m1: Machine,
      k1: Code, k: Code, s: Store, n: nat, n2: nat, fuel: nat, c: Conf, c2: Conf)
    requires Ready(ctx, used, ex, tb, ts, w, below, caught, m, s) && c.Running?
    requires w1.ts == tb + ts1 && Grown(w, w1)
    requires var o := EvalList(ctx.cfg.env, ctx.host, es, caught, m, fuel);
        Arrived(ctx, w1, w2, below, caught, o, k, n2, fuel, c2)
    requires c2 == Steps(ctx.host, ctx.p, c, n2)
    ensures var o := EvalList(ctx.cfg.env, ctx.host, es, caught, m, fuel);
        Arrived(ctx, w, w2, below, caught, o, k, n + n2, fuel, c2)
    ensures forall a | Steps(ctx.host, ctx.p, a, n) == c :: Steps(ctx.host, ctx.p, a, n + n2) == c2
  {
    hide EvalList, Arrived, Grown, Rel, StacksOk, HostOk;
    ArrivedEarlier(ctx, tb, w, w1, w2, used, below, caught, EvalList(ctx.cfg.env, ctx.host, es, caught, m, fuel), k,
        n2, n + n2, fuel, c2);
    forall a | Steps(ctx.host, ctx.p, a, n) == c ensures Steps(ctx.host, ctx.p, a, n + n2) == c2 {
      Chain(ctx, a, n, c, n2, c2);
    }
  }

  lemma {:induction false} SimExpr(ctx: Ctx, e: Expr, used: set<string>, ex: set<string>, tb: seq<Type>,
      ts: seq<Type>, w: Writer, below: seq<Value>, caught: Caught, m: Machine, k: Code, s: Store, fuel: nat)
    returns (n: nat, c: Conf)
    requires TypeExpr(ctx.cfg.env, e, Frames(w.labels), ex, ts) != Ill
    requires FreshExpr(e, used) && RethrownBy(e) <= ctx.cfg.rethrown
    requires Ready(ctx, used, ex, tb, ts, w, below, caught, m, s)
    requires Placed(ctx, LowerExpr(ctx.cfg, e, w).0, LowerExpr(ctx.cfg, e, w).1, k)
    ensures c == Steps(ctx.host, ctx.p, Running(Append(LowerExpr(ctx.cfg, e, w).0, k), s), n)
    ensures Arrived(ctx, w, LowerExpr(ctx.cfg, e, w).1, below, caught,
        Eval(ctx.cfg.env, ctx.host, e, caught, m, fuel), k, n, fuel, c)
    ensures Eval(ctx.cfg.env, ctx.host, e, caught, m, fuel).Next? ==>
        TypeExpr(ctx.cfg.env, e, Frames(w.labels), ex, ts).Live?
    decreases fuel, e, 2
  {
    hide Ready, Placed, Arrived, Append, LowerExpr, TypeExpr, Eval, Steps, Grown, StacksOk, LowerBlock, LowerLoop,
        LowerIf, LowerTry, Fresh, Rethrown, FreshCatches, RethrownIn, TypeBody;
    match e
    case Block(l, d, body) =>
      BlockUnfold(ctx, e, Frames(w.labels), ex, ts, w, caught, m, fuel);
      n, c := SimBlock(ctx, l, d, body, used, ex, tb, ts, w, below, caught, m, k, s, fuel);
    case Loop(_, _, _) =>
      n, c := SimLoop(ctx, e, used, ex, tb, ts, w, below, caught, m, k, s, fuel);
    case If(_, _, _, _) =>
      n, c := SimIf(ctx, e, used, ex, tb, ts, w, below, caught, m, k, s, fuel);
    case Try(l, d, body, kind, _, _) =>
      if kind == PlainTry {
        BlockUnfold(ctx, e, Frames(w.labels), ex, ts, w, caught, m, fuel);
        n, c := SimBlock(ctx, l, d, body, used, ex, tb, ts, w, below, caught, m, k, s, fuel);
      } else {
        n, c := SimTry(ctx, e, used, ex, tb, ts, w, below, caught, m, k, s, fuel);
      }
    case _ =>
      n, c := SimLeaf(ctx, e, used, ex, tb, ts, w, below, caught, m, k, s, fuel);
  }

  // ----- leaves -----

  predicate IsLeaf(e: Expr) {
    !e.Block? && !e.Loop? && !e.If? && !e.Try?
  }

  lemma SimLeaf(ctx: Ctx, e: Expr, used: set<string>, ex: set<string>, tb: seq<Type>, ts: seq<Type>, w: Writer,
      below: seq<Value>, caught: Caught, m: Machine, k: Code, s: Store, fuel: nat)
    returns (n: nat, c: Conf)
    requires IsLeaf(e) && TypeExpr(ctx.cfg.env, e, Frames(w.labels), ex, ts) != Ill && RethrownBy(e) <= ctx.cfg.rethrown
    requires Ready(ctx, used, ex, tb, ts, w, below, caught, m, s)
    requires Placed(ctx, LowerExpr(ctx.cfg, e, w).0, LowerExpr(ctx.cfg, e, w).1, k)
    ensures c == Steps(ctx.host, ctx.p, Running(Append(LowerExpr(ctx.cfg, e, w).0, k), s), n)
    ensures Arrived(ctx, w, LowerExpr(ctx.cfg, e, w).1, below, caught,
        Eval(ctx.cfg.env, ctx.host, e, caught, m, fuel), k, n, fuel, c)
    ensures Eval(ctx.cfg.env, ctx.host, e, caught, m, fuel).Next? ==>
        TypeExpr(ctx.cfg.env, e, Frames(w.labels), ex, ts).Live?
  {
    hide Ready, Located, JumpsOk, Arrived, Append, LowerExpr, TypeExpr, Eval, Steps, LowerGoto, LowerCases, EvalInstr,
        LowerInstr, TypeInstr, BranchOk;
    LeafTyped(ctx.cfg.env, e, Frames(w.labels), ex, ts);
    if !e.Plain? { LeafEnds(ctx, e, Frames(w.labels), ex, ts, caught, m, fuel); }
    match e
    case Plain(i) =>
      PlainUnfold(ctx, i, Frames(w.labels), ex, ts, w, caught, m, fuel);
      FollowsInstr(ctx.cfg, i, tb, ts);
      n, c := SimPlain(ctx, i, used, ex, tb, ts, w, below, caught, m, k, s, fuel);
    case Br(v) =>
      JumpUnfold(ctx, e, w, caught, m, fuel);
      n, c := SimBr(ctx, v, used, ex, tb, ts, w, below, caught, m, k, s, fuel);
    case BrIf(v) =>
      n, c := SimBrIf(ctx, v, used, ex, tb, ts, w, below, caught, m, k, s, fuel);
    case BrTable(vs, d) =>
      n, c := SimBrTable(ctx, vs, d, used, ex, tb, ts, w, below, caught, m, k, s, fuel);
    case Return =>
      JumpUnfold(ctx, e, w, caught, m, fuel);
      ReadyLabels(ctx, used, ex, tb, ts, w, below, caught, m, s);
      ReturnTyped(Frames(w.labels), ts);
      n, c := SimBr(ctx, Index(|w.labels| - 1), used, ex, tb, ts, w, below, caught, m, k, s, fuel);
    case Unreachable =>
      n, c := SimUnreachable(ctx, used, ex, tb, ts, w, below, caught, m, k, s, fuel);
    case Throw(t) =>
      n, c := SimThrowExpr(ctx, t, used, ex, tb, ts, w, below, caught, m, k, s, fuel);
    case Rethrow(v) =>
      RethrowReady(ctx, v, used, ex, tb, ts, w, below, caught, m, s);
      n, c := SimRethrow(ctx, v.name, used, ex, tb, ts, w, below, caught, m, k, s, fuel);
  }

  /** What typing says of a leaf. */
  lemma LeafTyped(env: Env, e: Expr, fs: seq<Frame>, ex: set<string>, ts: seq<Type>)
    requires IsLeaf(e) && TypeExpr(env, e, fs, ex, ts) != Ill
    ensures e.Br? ==> BranchOk(fs, e.target, ts)
    ensures e.BrIf? ==> EndsWith(ts, [I32]) && BranchOk(fs, e.target, ts[..|ts| - 1])
    ensures e.BrTable? ==> EndsWith(ts, [I32]) && BranchOk(fs, e.default, ts[..|ts| - 1])
    ensures e.BrTable? ==> forall x | x in e.targets :: BranchOk(fs, x, ts[..|ts| - 1])
    ensures e.Return? ==> |fs| > 0 && EndsWith(ts, fs[0].sig)
    ensures e.Throw? ==> e.tag < |env.tags| && EndsWith(ts, env.tags[e.tag])
    ensures e.Rethrow? ==> e.target.Name? && e.target.name in ex
  {
    hide EndsWith, BranchOk;
  }

  lemma ReturnTyped(fs: seq<Frame>, ts: seq<Type>)
    requires |fs| > 0 && EndsWith(ts, fs[0].sig)
    ensures BranchOk(fs, Index(|fs| - 1), ts)
  {}

  /** Only plain instructions and conditional branches fall through. */
  lemma LeafEnds(ctx: Ctx, e: Expr, fs: seq<Frame>, ex: set<string>, ts: seq<Type>, caught: Caught, m: Machine,
      fuel: nat)
    requires IsLeaf(e) && TypeExpr(ctx.cfg.env, e, fs, ex, ts) != Ill && !e.Plain?
    ensures Eval(ctx.cfg.env, ctx.host, e, caught, m, fuel).Next? ==> TypeExpr(ctx.cfg.env, e, fs, ex, ts).Live?
  {}

  lemma PlainUnfold(ctx: Ctx, i: Instr, fs: seq<Frame>, ex: set<string>, ts: seq<Type>, w: Writer, caught: Caught,
      m: Machine, fuel: nat)
    ensures TypeExpr(ctx.cfg.env, Plain(i), fs, ex, ts) == TypeInstr(ctx.cfg.env, i, ts)
    ensures Eval(ctx.cfg.env, ctx.host, Plain(i), caught, m, fuel) == EvalInstr(ctx.cfg.env, ctx.host, i, m)
    ensures var (code, ts1) := LowerInstr(ctx.cfg, i, w.ts); LowerExpr(ctx.cfg, Plain(i), w) == (code, w.(ts := ts1))
  {
    hide TypeInstr, EvalInstr, LowerInstr;
  }

  lemma JumpUnfold(ctx: Ctx, e: Expr, w: Writer, caught: Caught, m: Machine, fuel: nat)
    requires e.Br? || (e.Return? && w.labels != [])
    ensures var v := if e.Br? then e.target else Index(|w.labels| - 1);
            LowerExpr(ctx.cfg, e, w) == LowerGoto(v, w)
                && Eval(ctx.cfg.env, ctx.host, e, caught, m, fuel) == Branch(TargetOf(v), m)
  {
    hide LowerGoto;
  }

  lemma ReadyLabels(ctx: Ctx, used: set<string>, ex: set<string>, tb: seq<Type>, ts: seq<Type>, w: Writer,
      below: seq<Value>, caught: Caught, m: Machine, s: Store)
    requires Ready(ctx, used, ex, tb, ts, w, below, caught, m, s)
    ensures w.labels != [] && !w.dead
  {}

  lemma RethrowReady(ctx: Ctx, v: Var, used: set<string>, ex: set<string>, tb: seq<Type>, ts: seq<Type>, w: Writer,
      below: seq<Value>, caught: Caught, m: Machine, s: Store)
    requires Ready(ctx, used, ex, tb, ts, w, below, caught, m, s) && v.Name? && v.name in ex
    requires RethrownBy(Rethrow(v)) <= ctx.cfg.rethrown
    ensures v.name in caught && v.name in ctx.cfg.rethrown
  {}

  lemma SimPlain(ctx: Ctx, i: Instr, used: set<string>, ex: set<string>, tb: seq<Type>, ts: seq<Type>, w: Writer,
      below: seq<Value>, caught: Caught, m: Machine, k: Code, s: Store, fuel: nat)
    returns (n: nat, c: Conf)
    requires TypeInstr(ctx.cfg.env, i, ts).Live? && Ready(ctx, used, ex, tb, ts, w, below, caught, m, s)
    ensures var (code, ts1) := LowerInstr(ctx.cfg, i, w.ts);
            c == Steps(ctx.host, ctx.p, Running(Append(code, k), s), n)
            && Arrived(ctx, w, w.(ts := ts1), below, caught, EvalInstr(ctx.cfg.env, ctx.host, i, m), k, n, fuel, c)
  {
    hide TypeInstr, Rel, StacksOk, HostOk, LowerInstr, EvalInstr, Arrived, Append;
    n, c := SimInstr(ctx, i, tb, ts, w, below, caught, m, k, s, fuel);
  }

  lemma SimUnreachable(ctx: Ctx, used: set<string>, ex: set<string>, tb: seq<Type>, ts: seq<Type>, w: Writer,
      below: seq<Value>, caught: Caught, m: Machine, k: Code, s: Store, fuel: nat)
    returns (n: nat, c: Conf)
    requires Ready(ctx, used, ex, tb, ts, w, below, caught, m, s)
    ensures c == Steps(ctx.host, ctx.p, Running(Append(LowerExpr(ctx.cfg, Unreachable, w).0, k), s), n)
    ensures Arrived(ctx, w, LowerExpr(ctx.cfg, Unreachable, w).1, below, caught,
        Eval(ctx.cfg.env, ctx.host, Unreachable, caught, m, fuel), k, n, fuel, c)
  {
    n, c := 1, Aborted(s);
    AppendOne(Abort, k);
    OneStep(ctx, Running(Cons(Abort, k), s), c);
  }

  // ----- blocks -----

  lemma {:induction false} SimBlock(ctx: Ctx, l: string, d: BlockDecl, body: seq<Expr>, used: set<string>,
      ex: set<string>, tb: seq<Type>, ts: seq<Type>, w: Writer, below: seq<Value>, caught: Caught, m: Machine,
      k: Code, s: Store, fuel: nat)
    returns (n: nat, c: Conf)
    requires EndsWith(ts, d.sig.params) && TypeBody(ctx.cfg.env, body, Frames(w.labels) + [Frame(l, d.sig.results)],
        ex, d.sig.params, d.sig.results)
    requires l != "" && l !in used && Fresh(body, used + {l}) && Rethrown(body) <= ctx.cfg.rethrown
    requires Ready(ctx, used, ex, tb, ts, w, below, caught, m, s)
    requires Placed(ctx, LowerBlock(ctx.cfg, l, d, body, w).0, LowerBlock(ctx.cfg, l, d, body, w).1, k)
    ensures c == Steps(ctx.host, ctx.p, Running(Append(LowerBlock(ctx.cfg, l, d, body, w).0, k), s), n)
    ensures var p := |d.sig.params|;
            var o := Exit(EvalList(ctx.cfg.env, ctx.host, body, caught, m.(stack := TopN(m.stack, p)), fuel), l,
                DropN(m.stack, p), |d.sig.results|);
            Arrived(ctx, w, LowerBlock(ctx.cfg, l, d, body, w).1, below, caught, o, k, n, fuel, c)
    decreases fuel, body, 1
  {
    hide Ready, Placed, Arrived, Append, LowerBlock, LowerList, TypeList, EvalList, Steps, Grown, Exit, Fresh,
        Rethrown, EndsWith, Opened, LabelDecl, PopBlock, Lands;
    var p := |d.sig.params|;
    var rest := DropN(m.stack, p);
    var w0 := w.(ts := DropN(w.ts, p));
    var f := Frame(l, d.sig.results);
    var w1 := Enter(w0, f, BlockKind, d.sig.params);
    var e := LabelEntry(f, BlockKind, |w0.ts|, |w.tries|, false);
    var ctx1 := ctx.(ks := ctx.ks + [k]);
    ReadyLabels(ctx, used, ex, tb, ts, w, below, caught, m, s);
    BlockParts(ctx, ctx1, l, d, body, used, w, k);
    PlacedSizes(ctx, ctx1, w, w1, LowerList(ctx.cfg, body, w1).0, LowerList(ctx.cfg, body, w1).1, e,
        Append(LabelDecl(LowerList(ctx.cfg, body, w1).1, UserLabel(l)), k));
    EnterReady(ctx, ctx1, f, BlockKind, d.sig.params, used, ex, tb, ts, w, below, caught, m, s);
    EnterFrames(w0, f, BlockKind, d.sig.params);
    var (code, w2) := LowerList(ctx.cfg, body, w1);
    var k1 := Append(LabelDecl(w2, UserLabel(l)), k);
    var m1 := m.(stack := TopN(m.stack, p));
    BodyTyped(ctx.cfg.env, body, Frames(w1.labels), ex, d.sig.params, d.sig.results);
    n, c := SimList(ctx1, body, used + {l}, ex, w0.ts, d.sig.params, w1, below + rest, caught, m1, k1, s, fuel);
    var w3 := PopBlock(w2, w0, d.sig.results);
    PlacedJumps(ctx, LowerBlock(ctx.cfg, l, d, body, w).0, w3, k);
    PopSound(w2, w0, d.sig.results);
    AfterBody(ctx.cfg, body, ex, d.sig.params, d.sig.results, w0, w1);
    n, c := LeaveBlock(ctx, ctx1, w, w1, w2, w3, e, below, rest, used, caught,
        EvalList(ctx.cfg.env, ctx.host, body, caught, m1, fuel), k1, k,
                       |d.sig.results|, Running(Append(code, k1), s), n, fuel, c);
  }

  /** A typed body is typable, and types its results if its end is reached. */
  lemma BodyTyped(env: Env, es: seq<Expr>, fs: seq<Frame>, ex: set<string>, ts: seq<Type>, results: seq<Type>)
    requires TypeBody(env, es, fs, ex, ts, results)
    ensures TypeList(env, es, fs, ex, ts) != Ill
    ensures TypeList(env, es, fs, ex, ts).Live? ==> TypeList(env, es, fs, ex, ts) == Live(results)
  {}

  /** The context has a continuation for each open label. */
  lemma PlacedSizes(ctx: Ctx, ctx1: Ctx, w: Writer, w1: Writer, code: Code, w2: Writer, e: LabelEntry, k: Code)
    requires Placed(ctx1, code, w2, k) && Grown(w1, w2) && w1.labels == w.labels + [e]
    requires |ctx1.ks| == |ctx.ks| + 1
    ensures |ctx.ks| == |w.labels| && |ctx1.hs| == |w1.tries|
  {}

  /** A run of a body followed by leaving its block. */
  lemma LeaveBlock(ctx: Ctx, ctx1: Ctx, w: Writer, w1: Writer, w2: Writer, w3: Writer, e: LabelEntry,
      below: seq<Value>, rest: seq<Value>, used: set<string>, caught: Caught, o: Outcome, k1: Code, k: Code,
      arity: nat, c0: Conf, n: nat, fuel: nat, c: Conf)
    returns (n1: nat, c1: Conf)
    requires Opened(ctx, ctx1, w, w1, e, below, rest, used) && e.kind != TryKindL && w1.tries == w.tries
        && Grown(w1, w2)
    requires Arrived(ctx1, w1, w2, below + rest, caught, o, k1, n, fuel, c)
    requires c == Steps(ctx.host, ctx.p, c0, n)
    requires o.Next? ==> Lands(k1, k) && w3.ts == w2.ts
    requires o.Branch? && o.to == ToLabel(e.frame.name) ==>
               ctx1.ks[|w.labels|] == k && arity == |e.frame.sig| && w3.ts == w1.ts[..|below| + |rest|] + e.frame.sig
    requires w3.tries == w2.tries
    ensures c1 == Steps(ctx.host, ctx.p, c0, n1)
    ensures Arrived(ctx, w, w3, below, caught, Exit(o, e.frame.name, rest, arity), k, n1, fuel, c1)
  {
    hide Arrived, Opened, Exit, Lands;
    var n2;
    n2, c1 := Leave(ctx, ctx1, w, w1, w2, w3, e, below, rest, used, caught, o, k1, k, arity, n, fuel, c);
    n1 := n + n2;
    Chain(ctx, c0, n, c, n2, c1);
  }

  // ----- loops -----

  lemma {:induction false} SimLoop(ctx: Ctx, e: Expr, used: set<string>, ex: set<string>, tb: seq<Type>,
      ts: seq<Type>, w: Writer, below: seq<Value>, caught: Caught, m: Machine, k: Code, s: Store, fuel: nat)
    returns (n: nat, c: Conf)
    requires e.Loop? && TypeExpr(ctx.cfg.env, e, Frames(w.labels), ex, ts) != Ill
    requires FreshExpr(e, used) && RethrownBy(e) <= ctx.cfg.rethrown
    requires Ready(ctx, used, ex, tb, ts, w, below, caught, m, s)
    requires Placed(ctx, LowerExpr(ctx.cfg, e, w).0, LowerExpr(ctx.cfg, e, w).1, k)
    ensures c == Steps(ctx.host, ctx.p, Running(Append(LowerExpr(ctx.cfg, e, w).0, k), s), n)
    ensures Arrived(ctx, w, LowerExpr(ctx.cfg, e, w).1, below, caught,
        Eval(ctx.cfg.env, ctx.host, e, caught, m, fuel), k, n, fuel, c)
    ensures TypeExpr(ctx.cfg.env, e, Frames(w.labels), ex, ts).Live?
    decreases fuel, e, 1
  {
    hide Ready, Placed, Arrived, Append, LowerExpr, LowerLoop, LowerList, TypeExpr, TypeList, Eval, EvalList,
        EvalLoop, Steps, Grown, Exit, Fresh, Rethrown, EndsWith, Opened, PopBlock, Lands;
    var (l, sig) := (e.name, e.decl.sig);
    var p := |sig.params|;
    LoopUnfold(ctx, e, Frames(w.labels), ex, ts, w, caught, m, fuel);
    if e.body == [] {
      n, c := EmptyLoop(ctx, e, used, ex, tb, ts, w, below, caught, m, k, s, fuel);
    } else {
      var rest := DropN(m.stack, p);
      var w0 := w.(ts := DropN(w.ts, p));
      var f := Frame(l, sig.params);
      var w1 := Enter(w0, f, LoopKind, sig.params);
      var en := LabelEntry(f, LoopKind, |w0.ts|, |w.tries|, false);
      var (code, w2) := LowerList(ctx.cfg, e.body, w1);
      var head := Append(code, k);
      var ctx1 := ctx.(ks := ctx.ks + [head]);
      var m1 := m.(stack := TopN(m.stack, p));
      ReadyLabels(ctx, used, ex, tb, ts, w, below, caught, m, s);
      LoopParts(ctx, ctx1, e, used, w, k);
      PlacedSizes(ctx, ctx1, w, w1, code, w2, en, k);
      EnterReady(ctx, ctx1, f, LoopKind, sig.params, used, ex, tb, ts, w, below, caught, m, s);
      EnterFrames(w0, f, LoopKind, sig.params);
      var n1, c1 := SimIterate(ctx1, e, used + {l}, ex, w0.ts, w1, below + rest, caught, m1, k, s, fuel);
      var w3 := PopBlock(w2, w0, sig.results);
      PlacedJumps(ctx, LowerExpr(ctx.cfg, e, w).0, w3, k);
      PopSound(w2, w0, sig.results);
      AfterBody(ctx.cfg, e.body, ex, sig.params, sig.results, w0, w1);
      var o := EvalLoop(ctx.cfg.env, ctx.host, e, caught, m1, fuel);
      NoOwnBranch(ctx.cfg.env, ctx.host, e, caught, m1, fuel);
      LandsSelf(k);
      n1, c1 := LeaveBlock(ctx, ctx1, w, w1, w2, w3, en, below, rest, used, caught, o, k, k, p, Running(head, s), n1,
          fuel, c1);
      n, c := LoopHead(ctx, l, code, k, s, n1, c1);
      ArrivedLater(ctx, w, w3, below, caught, Exit(o, l, rest, p), k, n1, fuel, n, fuel, c1);
    }
  }

  lemma LandsSelf(k: Code)
    ensures Lands(k, k)
  {}

  lemma LoopHead(ctx: Ctx, l: string, code: Code, k: Code, s: Store, n1: nat, c1: Conf) returns (n: nat, c: Conf)
    requires c1 == Steps(ctx.host, ctx.p, Running(Append(code, k), s), n1)
    ensures n == n1 + 1 && c == c1
    ensures c == Steps(ctx.host, ctx.p, Running(Append(Cons(LabelHere(UserLabel(l), false), code), k), s), n)
  {
    n, c := n1 + 1, c1;
    var c0 := Running(Cons(LabelHere(UserLabel(l), false), Append(code, k)), s);
    OneStep(ctx, c0, Running(Append(code, k), s));
    Chain(ctx, c0, 1, Running(Append(code, k), s), n1, c1);
  }

  /** More steps, or less fuel to outlast, are fine. */
  lemma ArrivedLater(ctx: Ctx, w: Writer, w1: Writer, below: seq<Value>, caught: Caught, o: Outcome, k: Code, n: nat,
      fuel: nat, n1: nat, fuel1: nat, c: Conf)
    requires Arrived(ctx, w, w1, below, caught, o, k, n, fuel, c) && n1 >= n && n1 - n >= fuel1 - fuel
    ensures Arrived(ctx, w, w1, below, caught, o, k, n1, fuel1, c)
  {}

  /** A loop with an empty body is not written, and does nothing. */
  lemma EmptyLoop(ctx: Ctx, e: Expr, used: set<string>, ex: set<string>, tb: seq<Type>, ts: seq<Type>, w: Writer,
      below: seq<Value>, caught: Caught, m: Machine, k: Code, s: Store, fuel: nat)
    returns (n: nat, c: Conf)
    requires e.Loop? && e.body == []
    requires EndsWith(ts, e.decl.sig.params) && Ready(ctx, used, ex, tb, ts, w, below, caught, m, s)
    ensures c == Steps(ctx.host, ctx.p, Running(Append(LowerLoop(ctx.cfg, e, w).0, k), s), n)
    ensures var p := |e.decl.sig.params|;
            var o := Exit(EvalLoop(ctx.cfg.env, ctx.host, e, caught, m.(stack := TopN(m.stack, p)), fuel), e.name,
                DropN(m.stack, p), p);
            Arrived(ctx, w, LowerLoop(ctx.cfg, e, w).1, below, caught, o, k, n, fuel, c)
  {
    var p := |e.decl.sig.params|;
    var m1 := m.(stack := TopN(m.stack, p));
    n, c := 0, Running(k, s);
    assert EvalList(ctx.cfg.env, ctx.host, e.body, caught, m1, fuel) == Next(m1);
    assert EvalLoop(ctx.cfg.env, ctx.host, e, caught, m1, fuel) == Next(m1);
    hide EvalList, EvalLoop;
    assert |m.stack| == |ts|;
    assert DropN(m.stack, p) + TopN(m.stack, p) == m.stack;
    assert Exit(Next(m1), e.name, DropN(m.stack, p), p) == Next(m);
  }

  /** The iterations of a loop, one written body run again at each taken back edge. */
  lemma {:induction false} SimIterate(ctx: Ctx, e: Expr, used: set<string>, ex: set<string>, tb: seq<Type>, w: Writer,
      below: seq<Value>, caught: Caught, m: Machine, k: Code, s: Store, fuel: nat)
    returns (n: nat, c: Conf)
    requires e.Loop? && TypeBody(ctx.cfg.env, e.body, Frames(w.labels), ex, e.decl.sig.params, e.decl.sig.results)
    requires Fresh(e.body, used) && Rethrown(e.body) <= ctx.cfg.rethrown
    requires Ready(ctx, used, ex, tb, e.decl.sig.params, w, below, caught, m, s) && |w.labels| > 0
    requires w.labels[|w.labels| - 1] == LabelEntry(Frame(e.name, e.decl.sig.params), LoopKind, |tb|, |w.tries|, false)
    requires Placed(ctx, LowerList(ctx.cfg, e.body, w).0, LowerList(ctx.cfg, e.body, w).1, k)
    requires |ctx.ks| == |w.labels| && ctx.ks[|w.labels| - 1] == Append(LowerList(ctx.cfg, e.body, w).0, k)
    ensures c == Steps(ctx.host, ctx.p, Running(Append(LowerList(ctx.cfg, e.body, w).0, k), s), n)
    ensures var o := EvalLoop(ctx.cfg.env, ctx.host, e, caught, m, fuel);
            && Arrived(ctx, w, LowerList(ctx.cfg, e.body, w).1, below, caught, o, k, n, fuel, c)
            && (o.Next? ==> TypeList(ctx.cfg.env, e.body, Frames(w.labels), ex, e.decl.sig.params).Live?)
    decreases fuel, e, 0
  {
    hide Ready, Placed, Arrived, Append, LowerList, TypeList, EvalList, Steps, Fresh, Rethrown, BranchRel;
    var params := e.decl.sig.params;
    var head := Running(Append(LowerList(ctx.cfg, e.body, w).0, k), s);
    BodyTyped(ctx.cfg.env, e.body, Frames(w.labels), ex, params, e.decl.sig.results);
    n, c := SimList(ctx, e.body, used, ex, tb, params, w, below, caught, m, k, s, fuel);
    var o := EvalList(ctx.cfg.env, ctx.host, e.body, caught, m, fuel);
    var w2 := LowerList(ctx.cfg, e.body, w).1;
    if o.Branch? && o.to == ToLabel(e.name) {
      var n1, c1 := n, c;
      OwnArrived(ctx, w, w2, e.name, below, caught, o.m, k, n1, fuel, c1);
      if fuel > 0 {
        BackEdge(ctx, used, ex, tb, params, w, below, caught, m, o.m, s, c1);
        var m2 := o.m.(stack := TopN(o.m.stack, |params|));
        OwnCode(ctx, w, below, caught, o.m, c1);
        var n2;
        n2, c := SimIterate(ctx, e, used, ex, tb, w, below, caught, m2, k, c1.s, fuel - 1);
        n := n1 + n2;
        Chain(ctx, head, n1, c1, n2, c);
        ArrivedLater(ctx, w, w2, below, caught, EvalLoop(ctx.cfg.env, ctx.host, e, caught, m2, fuel - 1), k, n2,
            fuel - 1, n, fuel, c);
      }
    }
  }

  lemma OwnArrived(ctx: Ctx, w: Writer, w2: Writer, l: string, below: seq<Value>, caught: Caught, m: Machine, k: Code,
      n: nat, fuel: nat, c: Conf)
    requires Arrived(ctx, w, w2, below, caught, Branch(ToLabel(l), m), k, n, fuel, c)
    requires w.labels != [] && w.labels[|w.labels| - 1].frame.name == l
    ensures n >= 1 && BranchRel(ctx, w, |w.labels| - 1, below, caught, m, c)
    ensures fuel == 0 ==> Arrived(ctx, w, w2, below, caught, OutOfFuel(m), k, n, fuel, c)
  {}

  lemma OwnCode(ctx: Ctx, w: Writer, below: seq<Value>, caught: Caught, m: Machine, c: Conf)
    requires w.labels != [] && BranchRel(ctx, w, |w.labels| - 1, below, caught, m, c)
    ensures |w.labels| <= |ctx.ks| && c == Running(ctx.ks[|w.labels| - 1], c.s)
  {}

  // ----- conditionals -----

  lemma {:induction false} SimIf(ctx: Ctx, e: Expr, used: set<string>, ex: set<string>, tb: seq<Type>, ts: seq<Type>,
      w: Writer, below: seq<Value>, caught: Caught, m: Machine, k: Code, s: Store, fuel: nat)
    returns (n: nat, c: Conf)
    requires e.If? && TypeExpr(ctx.cfg.env, e, Frames(w.labels), ex, ts) != Ill
    requires FreshExpr(e, used) && RethrownBy(e) <= ctx.cfg.rethrown
    requires Ready(ctx, used, ex, tb, ts, w, below, caught, m, s)
    requires Placed(ctx, LowerExpr(ctx.cfg, e, w).0, LowerExpr(ctx.cfg, e, w).1, k)
    ensures c == Steps(ctx.host, ctx.p, Running(Append(LowerExpr(ctx.cfg, e, w).0, k), s), n)
    ensures Arrived(ctx, w, LowerExpr(ctx.cfg, e, w).1, below, caught,
        Eval(ctx.cfg.env, ctx.host, e, caught, m, fuel), k, n, fuel, c)
    ensures TypeExpr(ctx.cfg.env, e, Frames(w.labels), ex, ts).Live?
    decreases fuel, e, 1
  {
    hide Ready, Placed, Arrived, Append, LowerExpr, LowerIf, LowerList, TypeExpr, TypeList, Eval, EvalList, Steps,
        Grown, Exit, Fresh, Rethrown, EndsWith, Opened, PopBlock, Lands, LabelDecl, EvalX, StackVar, StacksOk;
    var (l, sig) := (e.name, e.decl.sig);
    var p := |sig.params|;
    IfUnfold(ctx, e, Frames(w.labels), ex, ts, w, caught, m, fuel);
    ReadyLabels(ctx, used, ex, tb, ts, w, below, caught, m, s);
    var ctx1 := ctx.(ks := ctx.ks + [k]);
    IfParts(ctx, ctx1, e, used, w, k);
    var wp := w.(ts := DropN(w.ts, 1));
    var mp := m.(stack := DropN(m.stack, 1));
    var tp := ts[..|ts| - 1];
    PopOperand(ctx, used, ex, tb, ts, w, below, caught, m, s);
    var rest := DropN(mp.stack, p);
    var w0 := w.(ts := DropN(wp.ts, p));
    var f := Frame(l, sig.results);
    var w1 := Enter(w0, f, IfKind, sig.params);
    var (c1, w2) := LowerList(ctx.cfg, e.thn, w1);
    var w2' := ResetTs(w2, w0, sig.params);
    var (c2, w3) := LowerList(ctx.cfg, e.els, w2');
    var w4 := LowerIf(ctx.cfg, e, w).1;
    var k1 := Append(LabelDecl(w3, UserLabel(l)), k);
    var m1 := mp.(stack := TopN(mp.stack, p));
    var en := LabelEntry(f, IfKind, |w0.ts|, |w.tries|, false);
    PlacedSizes(ctx, ctx1, wp, w1, c1, w2, en, k1);
    EnterReady(ctx, ctx1, f, IfKind, sig.params, used, ex, tb, tp, wp, below, caught, mp, s);
    EnterFrames(w0, f, IfKind, sig.params);
    GrownFrames(w1, w2);
    AfterBody(ctx.cfg, e.thn, ex, sig.params, sig.results, w0, w1);
    ResetIs(w2, w0, sig.params);
    GrownTrans(w1, w2, w2');
    PopSound(w3, w0, sig.results);
    AfterBody(ctx.cfg, e.els, ex, sig.params, sig.results, w0, w2');
    IfResult(ctx.cfg, e, w, w0, w2, w3);
    var taken := Peek(m.stack, 0).bits != 0;
    var es := if taken then e.thn else e.els;
    var x := VarX(StackVar(w.ts, 0));
    var o := EvalList(ctx.cfg.env, ctx.host, es, caught, m1, fuel);
    var n1: nat, d: Conf;
    if taken {
      BodyTyped(ctx.cfg.env, e.thn, Frames(w1.labels), ex, sig.params, sig.results);
      n1, d := SimList(ctx1, e.thn, used + {l}, ex, w0.ts, sig.params, w1, below + rest, caught, m1, k1, s, fuel);
      GrownTries(w1, w2);
      n1, d := LeaveBlock(ctx, ctx1, wp, w1, w2, w4.(tries := w2.tries), en, below, rest, used, caught, o, k1, k,
          |sig.results|,
                          Running(Append(c1, k1), s), n1, fuel, d);
      SameTries(w1, w2, w2', w3);
      ArrivedTries(ctx, wp, w4.(tries := w2.tries), w4, below, caught, Exit(o, l, rest, |sig.results|), k, n1, fuel, d);
    } else {
      BodyTyped(ctx.cfg.env, e.els, Frames(w2'.labels), ex, sig.params, sig.results);
      ReadyGrown(ctx1, used + {l}, used + {l} + Names(e.thn), ex, w0.ts, sig.params, w1, w2', below + rest, caught,
          m1, s);
      n1, d := SimList(ctx1, e.els, used + {l} + Names(e.thn), ex, w0.ts, sig.params, w2', below + rest, caught, m1,
          k1, s, fuel);
      ReadyStacks(ctx1, used + {l}, ex, w0.ts, sig.params, w1, below + rest, caught, m1, s);
      ArrivedEarlier(ctx1, w0.ts, w1, w2', w3, used + {l}, below + rest, caught, o, k1, n1, n1, fuel, d);
      GrownTrans(w1, w2', w3);
      n1, d := LeaveBlock(ctx, ctx1, wp, w1, w3, w4, en, below, rest, used, caught, o, k1, k, |sig.results|,
                          Running(Append(c2, k1), s), n1, fuel, d);
    }
    n, c := IfHead(ctx, x, c1, c2, LabelDecl(w3, UserLabel(l)), k, s, Peek(m.stack, 0), n1, d);
    ReadyStacks(ctx, used, ex, tb, ts, w, below, caught, m, s);
    ArrivedEarlier(ctx, tb, w, wp, w4, used, below, caught, Exit(o, l, rest, |sig.results|), k, n1, n, fuel, d);
  }

  lemma IfHead(ctx: Ctx, x: CExpr, a: Code, b: Code, decl: Code, k: Code, s: Store, v: Value, n1: nat, c1: Conf)
      returns (n: nat, c: Conf)
    requires EvalX(s, x) == Some(v)
    requires c1 == Steps(ctx.host, ctx.p, Running(Append(if v.bits != 0 then a else b, Append(decl, k)), s), n1)
    ensures n == n1 + 1 && c == c1
    ensures c == Steps(ctx.host, ctx.p, Running(Append(Cons(IfElse(x, a, b), decl), k), s), n)
  {
    n, c := n1 + 1, c1;
    var c0 := Running(Cons(IfElse(x, a, b), Append(decl, k)), s);
    var d := Running(Append(if v.bits != 0 then a else b, Append(decl, k)), s);
    OneStep(ctx, c0, d);
    Chain(ctx, c0, 1, d, n1, c1);
  }

  lemma ResetIs(w: Writer, w0: Writer, params: seq<Type>)
    requires w0.ts <= w.ts && !w0.dead
    ensures ResetTs(w, w0, params) == w.(ts := w0.ts + params, dead := false) && Grown(w, ResetTs(w, w0, params))
  {}

  /** The type stack after a conditional holds its results, whichever arm was written last. */
  lemma IfResult(cfg: Config, e: Expr, w: Writer, w0: Writer, w2: Writer, w3: Writer)
    requires e.If? && w0 == w.(ts := DropN(DropN(w.ts, 1), |e.decl.sig.params|))
    requires w2 == LowerList(cfg, e.thn, Enter(w0, Frame(e.name, e.decl.sig.results), IfKind, e.decl.sig.params)).1
    requires w3 == LowerList(cfg, e.els, ResetTs(w2, w0, e.decl.sig.params)).1 && w0.ts <= w2.ts && w0.ts <= w3.ts
    ensures LowerIf(cfg, e, w).1.ts == w0.ts + e.decl.sig.results && LowerIf(cfg, e, w).1.tries == w3.tries
  {
    hide LowerList, ShapeOf, LabelDecl;
    if e.els == [] { NoElse(cfg, ResetTs(w2, w0, e.decl.sig.params)); }
    assert w2.ts[..|w0.ts|] == w0.ts && w3.ts[..|w0.ts|] == w0.ts;
  }

  lemma NoElse(cfg: Config, w: Writer)
    ensures LowerList(cfg, [], w) == (Nil, w)
  {}

  lemma GrownTries(w: Writer, w1: Writer)
    requires Grown(w, w1)
    ensures |w1.tries| == |w.tries| && forall j | 0 <= j < |w.tries| :: w1.tries[j].name == w.tries[j].name
  {
    forall j | 0 <= j < |w.tries| ensures w1.tries[j].name == w.tries[j].name { var t := w1.tries[j]; }
  }

  lemma SameTries(w1: Writer, w2: Writer, w2': Writer, w3: Writer)
    requires Grown(w1, w2) && w2'.tries == w2.tries && Grown(w2', w3)
    ensures |w3.tries| == |w2.tries| && forall j | 0 <= j < |w2.tries| :: w3.tries[j].name == w2.tries[j].name
  {
    GrownTries(w2', w3);
  }

  /** The writer's state after some code matters only up to marks. */
  lemma ArrivedTries(ctx: Ctx, w: Writer, w1: Writer, w2: Writer, below: seq<Value>, caught: Caught, o: Outcome,
      k: Code, n: nat, fuel: nat, c: Conf)
    requires Arrived(ctx, w, w1, below, caught, o, k, n, fuel, c)
    requires o.Next? ==>
        w2.ts == w1.ts && |w2.tries| == |w1.tries| && forall j | 0 <= j < |w1.tries| ::
            w2.tries[j].name == w1.tries[j].name
    ensures Arrived(ctx, w, w2, below, caught, o, k, n, fuel, c)
  {
    if o.Next? { TryNames(w1.tries, w2.tries, ctx.hs, c.s.outer, c.s.bufs); }
  }

  lemma ReadyStacks(ctx: Ctx, used: set<string>, ex: set<string>, tb: seq<Type>, ts: seq<Type>, w: Writer,
      below: seq<Value>, caught: Caught, m: Machine, s: Store)
    requires Ready(ctx, used, ex, tb, ts, w, below, caught, m, s)
    ensures StacksOk(w, |below|, used) && |tb| == |below| && tb <= w.ts
  {}

  /** The second arm starts where the first did, with more labels marked and more names used. */
  lemma ReadyGrown(ctx: Ctx, used: set<string>, used1: set<string>, ex: set<string>, tb: seq<Type>, ts: seq<Type>,
      w: Writer, w1: Writer, below: seq<Value>, caught: Caught, m: Machine, s: Store)
    requires Ready(ctx, used, ex, tb, ts, w, below, caught, m, s) && Grown(w, w1) && w1.ts == w.ts && !w1.dead
        && used <= used1
    ensures Ready(ctx, used1, ex, tb, ts, w1, below, caught, m, s)
  {
    RelGrown(ctx, w, w1, below, caught, m, s);
    StacksGrown(w, w1, |below|, used);
    StacksMore(w1, |below|, used, used1);
  }

  // ----- tries -----

  /** What is known once a try's body has been written: where the parts of the try stand and
      what the writer's state is around them. */
  ghost predicate TryMid(ctx: Ctx, e: Expr, used: set<string>, tb: seq<Type>, ts: seq<Type>, w: Writer, w0: Writer,
      w1: Writer, w2: Writer, below: seq<Value>, rest: seq<Value>, k: Code) {
    && e.Try? && e.name != "" && e.name !in used
    && w0 == w.(ts := w0.ts) && !w0.dead && tb <= w0.ts
        && w1 == EnterTry(w0, Frame(e.name, e.decl.sig.results), e.decl.sig.params)
    && Grown(w1, w2) && w0.ts <= w2.ts
    && |tb| == |below| && |w0.ts| == |below| + |rest| && |ctx.ks| == |w.labels| && |ctx.hs| == |w.tries|
    && (var (hc, w4, w5) := TryEnd(ctx.cfg, e, w0, w2);
        var kk := Append(LabelDecl(w4, UserLabel(e.name)), k);
        && Located(ctx.p, hc, kk) && Lands(kk, k) && JumpsOk(ctx, w5)
            && (e.kind == CatchTry ==> JumpsOk(BlockCtx(ctx, k), w4)) && w4.sound && w5.sound
        && w5.ts == w0.ts + e.decl.sig.results
        && Opened(ctx, TryCtx(ctx, k, Append(hc, kk)), w, w1,
            LabelEntry(Frame(e.name, e.decl.sig.results), TryKindL, |w0.ts|, |w.tries|, false), below, rest, used))
  }

  /** Into a try, and through its body. */
  lemma {:induction false} TryRuns(ctx: Ctx, e: Expr, used: set<string>, ex: set<string>, tb: seq<Type>,
      ts: seq<Type>, w: Writer, below: seq<Value>, caught: Caught, m: Machine, k: Code, s: Store, fuel: nat)
    returns (n: nat, d: Conf)
    requires e.Try? && e.kind != PlainTry && TypeExpr(ctx.cfg.env, e, Frames(w.labels), ex, ts) != Ill
    requires FreshExpr(e, used) && RethrownBy(e) <= ctx.cfg.rethrown
    requires Ready(ctx, used, ex, tb, ts, w, below, caught, m, s)
    requires Placed(ctx, LowerExpr(ctx.cfg, e, w).0, LowerExpr(ctx.cfg, e, w).1, k)
    ensures d == Steps(ctx.host, ctx.p, Running(Append(LowerExpr(ctx.cfg, e, w).0, k), s), n)
    ensures var (l, sig) := (e.name, e.decl.sig);
            var rest := DropN(m.stack, |sig.params|);
            var w0 := w.(ts := DropN(w.ts, |sig.params|));
            var w1 := EnterTry(w0, Frame(l, sig.results), sig.params);
            var w2 := LowerList(ctx.cfg, e.body, w1).1;
            var (hc, w4, w5) := TryEnd(ctx.cfg, e, w0, w2);
            var kk := Append(LabelDecl(w4, UserLabel(l)), k);
            var o := EvalList(ctx.cfg.env, ctx.host, e.body, caught, m.(stack := TopN(m.stack, |sig.params|)), fuel);
            && TryMid(ctx, e, used, tb, ts, w, w0, w1, w2, below, rest, k) && LowerExpr(ctx.cfg, e, w).1 == w5
            && Arrived(TryCtx(ctx, k, Append(hc, kk)), w1, w2, below + rest, caught, o, Cons(UnwindOuter(l), kk), n,
                   fuel, d)
            && (o.Next? ==> w2.ts == w0.ts + sig.results)
    decreases fuel, e, 1, 0
  {
    hide Ready, Placed, Arrived, Append, LowerExpr, LowerTry, LowerList, LowerCatches, LowerDelegate, TypeExpr,
        TypeList, TypeCatches, Eval, EvalList, EvalHandler, Steps, Grown, Exit, Fresh, FreshCatches, Rethrown,
        RethrownIn, EndsWith, Opened, PopBlock, Lands, LabelDecl, Landing, SaveCode, StacksOk, BeginCatches, TryCode;
    var (l, sig) := (e.name, e.decl.sig);
    var p := |sig.params|;
    TryTyped(ctx.cfg.env, e, Frames(w.labels), ex, ts);
    TryUnfold(ctx, e, w, caught, m, fuel);
    ReadyLabels(ctx, used, ex, tb, ts, w, below, caught, m, s);
    var rest := DropN(m.stack, p);
    var w0 := w.(ts := DropN(w.ts, p));
    var f := Frame(l, sig.results);
    var w1 := EnterTry(w0, f, sig.params);
    var (c1, w2) := LowerList(ctx.cfg, e.body, w1);
    var (hc, w4, w5) := TryEnd(ctx.cfg, e, w0, w2);
    var decl := LabelDecl(w4, UserLabel(l));
    var kk := Append(decl, k);
    var h := Append(hc, kk);
    var handler := Append(Append(Landing(w2, l), hc), kk);
    var ctx1 := TryCtx(ctx, k, h);
    var m1 := m.(stack := TopN(m.stack, p));
    TryParts(ctx, e, used, w, k);
    HandlerLands(w2, l, hc, kk);
    EnterTryReady(ctx, ctx1, h, handler, l, sig.params, sig.results, used, ex, tb, ts, w, below, caught, m, s);
    EnterTrySteps(ctx, l, c1, Append(Landing(w2, l), hc), decl, k, s);
    var k1 := Cons(UnwindOuter(l), kk);
    EnterFrames(w0, f, TryKindL, sig.params);
    BodyTyped(ctx.cfg.env, e.body, Frames(w1.labels), ex, sig.params, sig.results);
    var n1;
    n1, d := SimList(ctx1, e.body, used + {l}, ex, w0.ts, sig.params, w1, below + rest, caught, m1, k1,
        TryOpened(l, handler, s), fuel);
    var o := EvalList(ctx.cfg.env, ctx.host, e.body, caught, m1, fuel);
    PopSound(w2, w0, sig.results);
    AfterBody(ctx.cfg, e.body, ex, sig.params, sig.results, w0, w1);
    GrownFrames(w1, w2);
    GrownTries(w1, w2);
    TryResult(ctx.cfg, e, w0, w2);
    ReadyStacks(ctx, used, ex, tb, ts, w, below, caught, m, s);
    assert TryMid(ctx, e, used, tb, ts, w, w0, w1, w2, below, rest, k);
    hide TryMid, TryEnd, TryCtx;
    n := n1 + 2;
    Chain(ctx, Running(Append(TryCode(l, c1, Append(Landing(w2, l), hc), decl), k), s), 2,
        Running(Append(c1, k1), TryOpened(l, handler, s)), n1, d);
    ArrivedLater(ctx1, w1, w2, below + rest, caught, o, k1, n1, fuel, n, fuel, d);
  }

  lemma {:induction false} SimTry(ctx: Ctx, e: Expr, used: set<string>, ex: set<string>, tb: seq<Type>, ts: seq<Type>,
      w: Writer, below: seq<Value>, caught: Caught, m: Machine, k: Code, s: Store, fuel: nat)
    returns (n: nat, c: Conf)
    requires e.Try? && e.kind != PlainTry && TypeExpr(ctx.cfg.env, e, Frames(w.labels), ex, ts) != Ill
    requires FreshExpr(e, used) && RethrownBy(e) <= ctx.cfg.rethrown
    requires Ready(ctx, used, ex, tb, ts, w, below, caught, m, s)
    requires Placed(ctx, LowerExpr(ctx.cfg, e, w).0, LowerExpr(ctx.cfg, e, w).1, k)
    ensures c == Steps(ctx.host, ctx.p, Running(Append(LowerExpr(ctx.cfg, e, w).0, k), s), n)
    ensures Arrived(ctx, w, LowerExpr(ctx.cfg, e, w).1, below, caught,
        Eval(ctx.cfg.env, ctx.host, e, caught, m, fuel), k, n, fuel, c)
    ensures TypeExpr(ctx.cfg.env, e, Frames(w.labels), ex, ts).Live?
    decreases fuel, e, 1
  {
    hide Ready, Placed, Arrived, Append, LowerExpr, LowerTry, LowerList, LowerCatches, LowerDelegate, TypeExpr,
        TypeList, TypeCatches, Eval, EvalList, EvalHandler, Steps, Exit, Fresh, FreshCatches, Rethrown, RethrownIn,
        LabelDecl, TryCode, Landing, TryMid, TryEnd, TryCtx;
    var (l, sig) := (e.name, e.decl.sig);
    TryTyped(ctx.cfg.env, e, Frames(w.labels), ex, ts);
    TryUnfold(ctx, e, w, caught, m, fuel);
    var n1, d := TryRuns(ctx, e, used, ex, tb, ts, w, below, caught, m, k, s, fuel);
    var rest := DropN(m.stack, |sig.params|);
    var w0 := w.(ts := DropN(w.ts, |sig.params|));
    var w1 := EnterTry(w0, Frame(l, sig.results), sig.params);
    var w2 := LowerList(ctx.cfg, e.body, w1).1;
    var (hc, w4, w5) := TryEnd(ctx.cfg, e, w0, w2);
    var k1 := Cons(UnwindOuter(l), Append(LabelDecl(w4, UserLabel(l)), k));
    var o := EvalList(ctx.cfg.env, ctx.host, e.body, caught, m.(stack := TopN(m.stack, |sig.params|)), fuel);
    var c0 := Running(Append(LowerExpr(ctx.cfg, e, w).0, k), s);
    ExitRaises(o, l, rest, |sig.results|);
    hide DropN, TopN, EnterTry;
    if o.Raise? || (o.Delegated? && o.to == ToLabel(l)) {
      MidRaised(ctx, e, used, tb, ts, w, w0, w1, w2, below, rest, k, caught, o, k1, n1, fuel, d);
      var n2: nat;
      if e.kind == CatchTry {
        n2, c := SimCaught(ctx, e, used, ex, tb, ts, w, w0, w1, w2, below, rest, caught, m, o.x, o.m, k, s, fuel, d);
      } else {
        n2, c := MidDelegated(ctx, e, used, ex, tb, ts, w, w0, w1, w2, below, rest, caught, m, o.x, o.m, k, s, fuel, d);
      }
      n := n1 + n2;
      Chain(ctx, c0, n1, d, n2, c);
      ArrivedLater(ctx, w, w5, below, caught, Eval(ctx.cfg.env, ctx.host, e, caught, m, fuel), k, n2, fuel, n, fuel, c);
    } else {
      n, c := MidNoRaise(ctx, e, used, tb, ts, w, w0, w1, w2, below, rest, k, caught, o, c0, n1, fuel, d);
    }
  }

  /** Names of the tries around a try's clauses. */
  lemma MidNames(ctx: Ctx, e: Expr, used: set<string>, tb: seq<Type>, ts: seq<Type>, w: Writer, w0: Writer,
      w1: Writer, w2: Writer, below: seq<Value>, rest: seq<Value>, k: Code)
    requires TryMid(ctx, e, used, tb, ts, w, w0, w1, w2, below, rest, k)
    ensures var w5 := TryEnd(ctx.cfg, e, w0, w2).2;
            && |w2.tries| == |w.tries| + 1 && w2.tries[|w.tries|].name == e.name
                && (forall j | 0 <= j < |w.tries| :: w2.tries[j].name == w.tries[j].name)
            && |w5.tries| == |w.tries| && (forall j | 0 <= j < |w.tries| :: w5.tries[j].name == w.tries[j].name)
  {
    hide Opened, LowerCatches, LowerDelegate, Located, JumpsOk, Lands, LabelDecl, Append, TryEnd;
    BeginCatchesGrown(w, w0, w1, w2, e.name, e.decl.sig.params, e.decl.sig.results);
    GrownTries(w1, w2);
    assert |w2.labels| == |w1.labels|;
    TryMarks(ctx.cfg, e, w0, w2);
    hide Grown;
    var w5 := TryEnd(ctx.cfg, e, w0, w2).2;
    forall j | 0 <= j < |w.tries| ensures w5.tries[j].name
        == w.tries[j].name { assert w5.tries[j].name == w2.tries[j].name; }
  }

  lemma MidNoRaise(ctx: Ctx, e: Expr, used: set<string>, tb: seq<Type>, ts: seq<Type>, w: Writer, w0: Writer,
      w1: Writer, w2: Writer, below: seq<Value>, rest: seq<Value>, k: Code, caught: Caught, o: Outcome, c0: Conf,
      n1: nat, fuel: nat, d: Conf)
    returns (n: nat, c: Conf)
    requires TryMid(ctx, e, used, tb, ts, w, w0, w1, w2, below, rest, k)
    requires d == Steps(ctx.host, ctx.p, c0, n1)
    requires var (hc, w4, w5) := TryEnd(ctx.cfg, e, w0, w2);
             var kk := Append(LabelDecl(w4, UserLabel(e.name)), k);
             Arrived(TryCtx(ctx, k, Append(hc, kk)), w1, w2, below + rest, caught, o, Cons(UnwindOuter(e.name), kk),
                 n1, fuel, d)
    requires !o.Raise? && !(o.Delegated? && o.to == ToLabel(e.name))
        && (o.Next? ==> w2.ts == w0.ts + e.decl.sig.results)
    ensures c == Steps(ctx.host, ctx.p, c0, n)
    ensures Arrived(ctx, w, TryEnd(ctx.cfg, e, w0, w2).2, below, caught, Exit(o, e.name, rest, |e.decl.sig.results|),
        k, n, fuel, c)
  {
    hide Arrived, Opened, Grown, Located, JumpsOk, Lands, LabelDecl, Append, TryEnd, Steps, Exit;
    var (hc, w4, w5) := TryEnd(ctx.cfg, e, w0, w2);
    var kk := Append(LabelDecl(w4, UserLabel(e.name)), k);
    MidNames(ctx, e, used, tb, ts, w, w0, w1, w2, below, rest, k);
    n, c := TryNoRaise(ctx, TryCtx(ctx, k, Append(hc, kk)), w, w1, w2, w5,
        LabelEntry(Frame(e.name, e.decl.sig.results), TryKindL, |w0.ts|, |w.tries|, false),
                       below, rest, used, caught, o, kk, k, c0, n1, fuel, d);
  }

  lemma MidRaised(ctx: Ctx, e: Expr, used: set<string>, tb: seq<Type>, ts: seq<Type>, w: Writer, w0: Writer,
      w1: Writer, w2: Writer, below: seq<Value>, rest: seq<Value>, k: Code, caught: Caught, o: Outcome, k1: Code,
      n1: nat, fuel: nat, d: Conf)
    requires TryMid(ctx, e, used, tb, ts, w, w0, w1, w2, below, rest, k)
    requires var (hc, w4, w5) := TryEnd(ctx.cfg, e, w0, w2);
             var kk := Append(LabelDecl(w4, UserLabel(e.name)), k);
             Arrived(TryCtx(ctx, k, Append(hc, kk)), w1, w2, below + rest, caught, o, k1, n1, fuel, d)
    requires o.Raise? || (o.Delegated? && o.to == ToLabel(e.name))
    ensures var (hc, w4, w5) := TryEnd(ctx.cfg, e, w0, w2);
            var kk := Append(LabelDecl(w4, UserLabel(e.name)), k);
            RaiseRel(TryCtx(ctx, k, Append(hc, kk)), w1, |w.tries| + 1, below + rest, caught, o.x, o.m, d)
    ensures Exit(o, e.name, rest, |e.decl.sig.results|) == Raise(o.x, o.m)
  {
    hide Arrived, Opened, Grown, Located, JumpsOk, Lands, LabelDecl, Append, TryEnd, RaiseRel;
    var (hc, w4, w5) := TryEnd(ctx.cfg, e, w0, w2);
    var kk := Append(LabelDecl(w4, UserLabel(e.name)), k);
    TryRaised(ctx, TryCtx(ctx, k, Append(hc, kk)), w, w1, w2,
        LabelEntry(Frame(e.name, e.decl.sig.results), TryKindL, |w0.ts|, |w.tries|, false),
              below, rest, used, caught, o, k1, n1, fuel, d);
  }

  lemma MidDelegated(ctx: Ctx, e: Expr, used: set<string>, ex: set<string>, tb: seq<Type>, ts: seq<Type>, w: Writer,
      w0: Writer, w1: Writer, w2: Writer, below: seq<Value>, rest: seq<Value>, caught: Caught, m: Machine, x: Exn,
      mx: Machine, k: Code, s: Store, fuel: nat, d: Conf)
    returns (n: nat, c: Conf)
    requires TryMid(ctx, e, used, tb, ts, w, w0, w1, w2, below, rest, k) && e.kind == DelegateTry
        && Resolve(Frames(w.labels), e.delegate).Some?
    requires Ready(ctx, used, ex, tb, ts, w, below, caught, m, s)
    requires var (hc, w4, w5) := TryEnd(ctx.cfg, e, w0, w2);
             var kk := Append(LabelDecl(w4, UserLabel(e.name)), k);
             RaiseRel(TryCtx(ctx, k, Append(hc, kk)), w1, |w.tries| + 1, below + rest, caught, x, mx, d)
    ensures c == Steps(ctx.host, ctx.p, d, n)
    ensures Arrived(ctx, w, TryEnd(ctx.cfg, e, w0, w2).2, below, caught, Delegated(TargetOf(e.delegate), x, mx), k, n,
        fuel, c)
  {
    hide Ready, Arrived, Opened, Located, JumpsOk, Lands, LabelDecl, Append, RaiseRel, StacksOk, BeginCatches,
        LowerDelegate, LowerCatches, Grown;
    var (hc, w4, w5) := TryEnd(ctx.cfg, e, w0, w2);
    var kk := Append(LabelDecl(w4, UserLabel(e.name)), k);
    var w3 := BeginCatches(w2, w0);
    MidNames(ctx, e, used, tb, ts, w, w0, w1, w2, below, rest, k);
    BeginCatchesGrown(w, w0, w1, w2, e.name, e.decl.sig.params, e.decl.sig.results);
    ReadyStacks(ctx, used, ex, tb, ts, w, below, caught, m, s);
    assert w.ts[..|below|] == tb == w1.ts[..|below|];
    n, c := LandDelegate(ctx, TryCtx(ctx, k, Append(hc, kk)), w, w1, w3, w5, e.delegate, e.name, used, below, rest,
        caught, x, mx, kk, d);
    ArrivedDelegated(ctx, w, w5, below, caught, TargetOf(e.delegate), x, mx, k, n, fuel, c);
  }

  lemma ExitRaises(o: Outcome, l: string, rest: seq<Value>, r: nat)
    ensures Exit(o, l, rest, r).Raise? <==> o.Raise? || (o.Delegated? && o.to == ToLabel(l))
  {}

  /** The type stack after a try holds its results. */
  lemma TryResult(cfg: Config, e: Expr, w0: Writer, w2: Writer)
    requires e.Try? && !w0.dead && TryEnd(cfg, e, w0, w2).2.sound
    ensures TryEnd(cfg, e, w0, w2).2.ts == w0.ts + e.decl.sig.results
    ensures e.kind == CatchTry ==> ResetTs(TryEnd(cfg, e, w0, w2).1, w0, e.decl.sig.results).sound
  {
    hide LowerCatches, LowerDelegate, BeginCatches, ShapeOf;
  }

  lemma ArrivedDelegated(ctx: Ctx, w: Writer, w1: Writer, below: seq<Value>, caught: Caught, to: Target, x: Exn,
      m: Machine, k: Code, n: nat, fuel: nat, c: Conf)
    requires RaiseRel(ctx, w, DelegateDepth(w.labels, to), below, caught, x, m, c)
    ensures Arrived(ctx, w, w1, below, caught, Delegated(to, x, m), k, n, fuel, c)
  {}

  /** An exception that reached a try with clauses. */
  lemma {:induction false} SimCaught(ctx: Ctx, e: Expr, used: set<string>, ex: set<string>, tb: seq<Type>,
      ts: seq<Type>, w: Writer, w0: Writer, w1: Writer, w2: Writer, below: seq<Value>, rest: seq<Value>,
      caught: Caught, m: Machine, x: Exn, mx: Machine, k: Code, s: Store, fuel: nat, d: Conf)
    returns (n: nat, c: Conf)
    requires e.Try? && e.kind == CatchTry && FreshExpr(e, used) && RethrownIn(e.catches) <= ctx.cfg.rethrown
    requires TypeCatches(ctx.cfg.env, e.catches, Frames(w.labels) + [Frame(e.name, e.decl.sig.results)],
        ex + {e.name}, e.decl.sig.results)
    requires Ready(ctx, used, ex, tb, ts, w, below, caught, m, s)
        && TryMid(ctx, e, used, tb, ts, w, w0, w1, w2, below, rest, k)
    requires var (hc, w4, w5) := TryEnd(ctx.cfg, e, w0, w2);
             var kk := Append(LabelDecl(w4, UserLabel(e.name)), k);
             RaiseRel(TryCtx(ctx, k, Append(hc, kk)), w1, |w.tries| + 1, below + rest, caught, x, mx, d)
    ensures c == Steps(ctx.host, ctx.p, d, n)
    ensures var o := Exit(EvalHandler(ctx.cfg.env, ctx.host, e.catches, e.name, x, caught, mx, fuel), e.name, rest,
        |e.decl.sig.results|);
            Arrived(ctx, w, TryEnd(ctx.cfg, e, w0, w2).2, below, caught, o, k, n, fuel, c)
    decreases fuel, e, 0
  {
    hide Ready, Arrived, Append, LowerCatches, LowerDelegate, TypeCatches, EvalHandler, Steps, Grown, Exit, Fresh,
        FreshCatches, RethrownIn, Opened, Lands, LabelDecl, SaveCode, StacksOk, BeginCatches, Located, JumpsOk,
        RaiseRel, Pending;
    var (l, results) := (e.name, e.decl.sig.results);
    var (hc, w4, w5) := TryEnd(ctx.cfg, e, w0, w2);
    var kk := Append(LabelDecl(w4, UserLabel(l)), k);
    var h := Append(hc, kk);
    var ctx1, ctx2 := TryCtx(ctx, k, h), BlockCtx(ctx, k);
    var wh := PopTry(BeginCatches(w2, w0));
    var c2 := LowerCatches(ctx.cfg, e.catches, w0, wh).0;
    var b1 := below + rest;
    var used1 := used + {l} + Names(e.body);
    BeginCatchesGrown(w, w0, w1, w2, l, e.decl.sig.params, results);
    var en := CatchEntry(w, w0, l, results);
    var wc := w0.(labels := w.labels + [en]);
    HandlerTail(ctx, l, c2, kk);
    var n1, s2 := LandCatch(ctx, ctx1, ctx2, w, w1, wh, l, b1, caught, x, mx, c2, kk, d);
    CatchReady(ctx, ctx2, used, used1, ex, tb, ts, w, w0, wc, wh, l, results, below, rest, caught, m, x, mx, s, s2);
    HandlerPlaced(ctx, ctx2, l, c2, w4, kk);
    var w4r := ResetTs(w4, w0, results);
    TryResult(ctx.cfg, e, w0, w2);
    var n2, d2 := SimHandler(ctx2, e.catches, l, x, results, used1, ex + {l}, w0, wh, b1, caught, mx, kk, s2, fuel);
    var o := EvalHandler(ctx.cfg.env, ctx.host, e.catches, l, x, caught, mx, fuel);
    GrownCatches(ctx.cfg, e.catches, w0, wh);
    CatchStacks(w, w0, wc, l, results, used, |below|, ctx, ex, tb, ts, below, caught, m, s);
    ArrivedEarlier(ctx2, w0.ts, wc, wh, w4r, used + {l}, b1, caught[l := x], o, kk, n2, n2, fuel, d2);
    GrownTrans(wc, wh, w4);
    ResetEnds(ctx.cfg, e, w0, w2, wc, w4, w4r);
    n2, d2 := LeaveBlock(ctx, ctx2, w, wc, w4r, w5, en, below, rest, used, caught[l := x], o, kk, k, |results|,
        Running(Append(c2, kk), s2), n2, fuel, d2);
    n, c := n1 + n2, d2;
    Chain(ctx, d, n1, Running(Append(c2, kk), s2), n2, c);
    var oe := Exit(o, l, rest, |results|);
    ReadyCaught(ctx, used, ex, tb, ts, w, below, caught, m, s);
    Forget(ctx, w, w5, below, caught, l, x, oe, k, n2, fuel, c);
    ArrivedLater(ctx, w, w5, below, caught, oe, k, n2, fuel, n, fuel, c);
  }

  lemma ReadyCaught(ctx: Ctx, used: set<string>, ex: set<string>, tb: seq<Type>, ts: seq<Type>, w: Writer,
      below: seq<Value>, caught: Caught, m: Machine, s: Store)
    requires Ready(ctx, used, ex, tb, ts, w, below, caught, m, s)
    ensures caught.Keys <= used
  {}

  lemma HandlerTail(ctx: Ctx, l: string, c2: Code, kk: Code)
    ensures Append(Cons(UnwindOuter(l), Append(SaveCode(ctx.cfg, l), c2)), kk)
        == Cons(UnwindOuter(l), Append(Append(SaveCode(ctx.cfg, l), c2), kk))
  {}

  /** The clauses' code within the handler. */
  lemma HandlerPlaced(ctx: Ctx, ctx2: Ctx, l: string, c2: Code, w4: Writer, kk: Code)
    requires Located(ctx.p, Cons(UnwindOuter(l), Append(SaveCode(ctx.cfg, l), c2)), kk)
    requires JumpsOk(ctx2, w4) && w4.sound && ctx2.p == ctx.p
    ensures Placed(ctx2, c2, w4, kk)
  {
    hide Located, JumpsOk;
    assert Labels(SaveCode(ctx.cfg, l)) == {};
    LocatedTail(ctx.p, UnwindOuter(l), Append(SaveCode(ctx.cfg, l), c2), kk);
    LocatedAppend(ctx.p, SaveCode(ctx.cfg, l), c2, kk);
  }

  lemma CatchStacks(w: Writer, w0: Writer, wc: Writer, l: string, results: seq<Type>, used: set<string>, size: nat,
      ctx: Ctx, ex: set<string>, tb: seq<Type>, ts: seq<Type>, below: seq<Value>, caught: Caught, m: Machine, s: Store)
    requires Ready(ctx, used, ex, tb, ts, w, below, caught, m, s) && size == |below|
    requires w0 == w.(ts := w0.ts) && tb <= w0.ts && wc == w0.(labels := w.labels + [CatchEntry(w, w0, l, results)])
        && l !in used
    ensures StacksOk(wc, |w0.ts|, used + {l}) && |tb| == |below| && tb <= w.ts && caught.Keys <= used
  {
    hide StacksOk, Rel;
    assert w0.ts + [] == w0.ts;
    EnterStacks(w, w0, wc, Frame(l, results), CatchKind, [], size, used);
  }

  /** The start of the clauses. */
  lemma CatchReady(ctx: Ctx, ctx2: Ctx, used: set<string>, used1: set<string>, ex: set<string>, tb: seq<Type>,
      ts: seq<Type>, w: Writer, w0: Writer, wc: Writer, wh: Writer, l: string, results: seq<Type>, below: seq<Value>,
      rest: seq<Value>, caught: Caught, m: Machine, x: Exn, mx: Machine, s: Store, s2: Store)
    requires Ready(ctx, used, ex, tb, ts, w, below, caught, m, s) && used + {l} <= used1
    requires w0 == w.(ts := w0.ts) && tb <= w0.ts && |w0.ts| == |below| + |rest| && l !in used && l != ""
    requires wc == w0.(labels := w.labels + [CatchEntry(w, w0, l, results)]) && Grown(wc, wh) && wh.ts == w0.ts
    requires ctx2 == ctx.(ks := ctx2.ks) && |ctx2.ks| == |ctx.ks| + 1 && ctx.ks <= ctx2.ks && |ctx.ks| == |w.labels|
        && |ctx.hs| == |w.tries|
    requires Pending(ctx2, wh, below + rest, caught[l := x], x, mx, s2)
    ensures Handling(ctx2, used1, ex + {l}, w0, wh, below + rest, caught, l, x, mx, s2)
    ensures Opened(ctx, ctx2, w, wc, CatchEntry(w, w0, l, results), below, rest, used)
    ensures Frames(wh.labels) == Frames(w.labels) + [Frame(l, results)]
  {
    hide Pending, HostOk, CaughtOk, StacksOk, Rel;
    CatchStacks(w, w0, wc, l, results, used, |below|, ctx, ex, tb, ts, below, caught, m, s);
    StacksGrown(wc, wh, |w0.ts|, used + {l});
    StacksMore(wh, |w0.ts|, used + {l}, used1);
    GrownFrames(wc, wh);
  }

  lemma ResetEnds(cfg: Config, e: Expr, w0: Writer, w2: Writer, wc: Writer, w4: Writer, w4r: Writer)
    requires e.Try? && Grown(wc, w4) && w4r == ResetTs(w4, w0, e.decl.sig.results) && wc.ts == w0.ts
    requires e.kind == CatchTry && w4 == TryEnd(cfg, e, w0, w2).1 && w4.labels != []
    requires TryEnd(cfg, e, w0, w2).2.ts == w0.ts + e.decl.sig.results
    ensures Grown(wc, w4r) && w4r.ts == w0.ts + e.decl.sig.results && w4r.tries == w4.tries
  {}

  /** The chain of clauses: the first that takes the exception runs; otherwise it is thrown on. */
  lemma {:induction false} SimHandler(ctx: Ctx, cs: seq<Catch>, l: string, x: Exn, results: seq<Type>,
      used: set<string>, ex: set<string>, w0: Writer, w: Writer, below: seq<Value>, caught: Caught, m: Machine,
      k: Code, s: Store, fuel: nat)
    returns (n: nat, c: Conf)
    requires TypeCatches(ctx.cfg.env, cs, Frames(w.labels), ex, results) && FreshCatches(cs, used)
        && RethrownIn(cs) <= ctx.cfg.rethrown
    requires Handling(ctx, used, ex, w0, w, below, caught, l, x, m, s)
    requires Placed(ctx, LowerCatches(ctx.cfg, cs, w0, w).0, LowerCatches(ctx.cfg, cs, w0, w).1, k)
    requires ResetTs(LowerCatches(ctx.cfg, cs, w0, w).1, w0, results).sound
    ensures c == Steps(ctx.host, ctx.p, Running(Append(LowerCatches(ctx.cfg, cs, w0, w).0, k), s), n)
    ensures Arrived(ctx, w, ResetTs(LowerCatches(ctx.cfg, cs, w0, w).1, w0, results), below, caught[l := x],
                    EvalHandler(ctx.cfg.env, ctx.host, cs, l, x, caught, m, fuel), k, n, fuel, c)
    decreases fuel, cs, 0
  {
    hide Ready, Placed, Arrived, Append, LowerList, LowerCatches, LowerThrow, TypeList, TypeBody, TypeCatches,
        EvalList, EvalHandler, Steps, Grown, Fresh, FreshCatches, Rethrown, RethrownIn, Handling, StacksOk, Located,
        JumpsOk, Rel, ResetTs, Chained, ElseBound, ElseLeft, LeavesList;
    HandlerUnfold(ctx, cs, l, x, results, used, ex, w0, w, caught, m, fuel);
    var code := LowerCatches(ctx.cfg, cs, w0, w).0;
    var w9 := LowerCatches(ctx.cfg, cs, w0, w).1;
    var w9r := ResetTs(w9, w0, results);
    var x1 := caught[l := x];
    var o := EvalHandler(ctx.cfg.env, ctx.host, cs, l, x, caught, m, fuel);
    if cs == [] {
      PlacedJumps(ctx, code, w9, k);
      n, c := SimUncaught(ctx, used, ex, w0, w, w9r, below, caught, l, x, m, k, s, fuel);
    } else if cs[0].tag == None {
      var w1 := ResetTs(w, w0, []);
      CatchAllReady(ctx, used, ex, w0, w, w1, below, caught, l, x, m, s);
      ResetFrames(w, w0, [], ctx, used, ex, below, caught, l, x, m, s);
      n, c := SimClause(ctx, cs[0].exprs, results, used, ex, w0, [], w1, below, x1, m.(stack := []), k, s, fuel);
      ClauseEarlier(ctx, used, ex, w0, [], w, w1, w9r, below, caught, l, x, m, s, o, k, n, n, fuel, c);
    } else {
      var t := cs[0].tag.value;
      var es := cs[0].exprs;
      var w1 := ResetTs(w, w0, TagOf(ctx.cfg.env, t));
      var (c1, w2) := LowerList(ctx.cfg, es, w1);
      var (c2, w8) := LowerCatches(ctx.cfg, cs[1..], w0, w2);
      ResetFrames(w, w0, TagOf(ctx.cfg.env, t), ctx, used, ex, below, caught, l, x, m, s);
      ClauseParts(ctx, cs, results, used, w0, w, k);
      GrownFrames(w, w2);
      if x.tag == t {
        n, c := SimTaken(ctx, t, es, c2, results, used, ex, w0, w, below, caught, l, x, m, k, s, fuel);
        if LeavesList(es) {
          LeavesDead(ctx.cfg.env, es, Frames(w.labels), ex, TagOf(ctx.cfg.env, t));
          ArrivedAny(ctx, w, ResetTs(w2, w0, results), w9r, below, x1, o, Append(ElseLeft(c2), k), k, n, fuel, c);
        } else {
          AppendNilLeft(k);
          ArrivedTries(ctx, w, ResetTs(w2, w0, results), w9r, below, x1, o, k, n, fuel, c);
        }
      } else {
        HandlingExn(ctx, used, ex, w0, w, below, caught, l, x, m, s);
        TagRun(ctx, t, Append(UnpackCode(|w0.ts|, TagOf(ctx.cfg.env, t)), c1), c2, k, s);
        var used1 := used + Names(es);
        HandlingNext(ctx, used, used1, ex, w0, w, w2, below, caught, l, x, m, s);
        var n1;
        n1, c := SimHandler(ctx, cs[1..], l, x, results, used1, ex, w0, w2, below, caught, m, k, s, fuel);
        n := 1 + n1;
        Chain(ctx, Running(Append(code, k), s), 1, Running(Append(c2, k), s), n1, c);
        ArrivedTries(ctx, w2, ResetTs(w8, w0, results), w9r, below, x1, o, k, n1, fuel, c);
        ClauseSkipped(ctx, used, ex, w0, w, w2, w9r, below, caught, l, x, m, s, o, k, n1, n, fuel, c);
      }
    }
  }

  /** What typing, lowering, names and evaluation say of a chain of clauses. */
  lemma HandlerUnfold(ctx: Ctx, cs: seq<Catch>, l: string, x: Exn, results: seq<Type>, used: set<string>,
      ex: set<string>, w0: Writer, w: Writer, caught: Caught, m: Machine, fuel: nat)
    requires TypeCatches(ctx.cfg.env, cs, Frames(w.labels), ex, results) && FreshCatches(cs, used)
        && RethrownIn(cs) <= ctx.cfg.rethrown
    ensures cs == [] ==> LowerCatches(ctx.cfg, cs, w0, w) == LowerThrow(w)
                         && EvalHandler(ctx.cfg.env, ctx.host, cs, l, x, caught, m, fuel) == Raise(x, m)
    ensures cs != [] ==> Fresh(cs[0].exprs, used) && Rethrown(cs[0].exprs) <= ctx.cfg.rethrown
    ensures cs != [] && cs[0].tag == None ==>
              && TypeBody(ctx.cfg.env, cs[0].exprs, Frames(w.labels), ex, [], results)
              && LowerCatches(ctx.cfg, cs, w0, w) == LowerList(ctx.cfg, cs[0].exprs, ResetTs(w, w0, []))
              && EvalHandler(ctx.cfg.env, ctx.host, cs, l, x, caught, m, fuel)
                  == EvalList(ctx.cfg.env, ctx.host, cs[0].exprs, caught[l := x], m.(stack := []), fuel)
    ensures cs != [] && cs[0].tag.Some? ==>
              var t := cs[0].tag.value;
              && t < |ctx.cfg.env.tags| && TagOf(ctx.cfg.env, t) == ctx.cfg.env.tags[t]
              && TypeBody(ctx.cfg.env, cs[0].exprs, Frames(w.labels), ex, ctx.cfg.env.tags[t], results)
              && TypeCatches(ctx.cfg.env, cs[1..], Frames(w.labels), ex, results)
                  && FreshCatches(cs[1..], used + Names(cs[0].exprs)) && RethrownIn(cs[1..]) <= ctx.cfg.rethrown
              && EvalHandler(ctx.cfg.env, ctx.host, cs, l, x, caught, m, fuel) ==
                   if t == x.tag then EvalList(ctx.cfg.env, ctx.host, cs[0].exprs, caught[l := x],
                       m.(stack := x.args), fuel)
                   else EvalHandler(ctx.cfg.env, ctx.host, cs[1..], l, x, caught, m, fuel)
    ensures cs != [] && cs[0].tag.Some? ==>
              var (t, es) := (cs[0].tag.value, cs[0].exprs);
              var tys := TagOf(ctx.cfg.env, t);
              var (c1, w2) := LowerList(ctx.cfg, es, ResetTs(w, w0, tys));
              var (c2, w3) := LowerCatches(ctx.cfg, cs[1..], w0, w2);
              LowerCatches(ctx.cfg, cs, w0, w) ==
                (Cons(IfTag(t, Append(UnpackCode(|w0.ts|, tys), c1), ElseBound(c2)), ElseLeft(c2)),
                    Chained(w3, es, c1, c2))
  {
    hide LowerList, EvalList, TypeList, Fresh, LowerThrow, ResetTs, Chained;
  }

  lemma PlacedJumps(ctx: Ctx, code: Code, w1: Writer, k: Code)
    requires Placed(ctx, code, w1, k)
    ensures JumpsOk(ctx, w1) && w1.sound
  {}

  lemma CatchAllReady(ctx: Ctx, used: set<string>, ex: set<string>, w0: Writer, w: Writer, w1: Writer,
      below: seq<Value>, caught: Caught, l: string, x: Exn, m: Machine, s: Store)
    requires Handling(ctx, used, ex, w0, w, below, caught, l, x, m, s) && w1 == ResetTs(w, w0, [])
    ensures Ready(ctx, used, ex, w0.ts, [], w1, below, caught[l := x], m.(stack := []), s)
  {
    hide Rel, Pending, StacksOk, HostOk, ResetTs, Ready;
    CatchAll(ctx, w0, w, w1, below, caught[l := x], x, m, s);
    ClauseReady(ctx, used, ex, w0, [], w, below, caught, l, x, m, m.(stack := []), s, s);
  }

  /** The test of a clause, with the rest of the chain behind its `else`. */
  lemma TagRun(ctx: Ctx, t: nat, a: Code, b: Code, k: Code, s: Store)
    ensures Steps(ctx.host, ctx.p, Running(Append(Cons(IfTag(t, a, ElseBound(b)), ElseLeft(b)), k), s), 1)
            == Running(if s.exn.tag == t then Append(a, Append(ElseLeft(b), k)) else Append(b, k), s)
  {
    hide Steps, ElseBound, ElseLeft;
    TagStep(ctx, t, a, ElseBound(b), Append(ElseLeft(b), k), s);
    ElseSplits(b);
    AppendAssoc(ElseBound(b), ElseLeft(b), k);
  }

  /** The first clause with a tag, and the rest of the chain behind its `else`: nothing of it is
      left over unless the clause leaves. */
  lemma ClauseParts(ctx: Ctx, cs: seq<Catch>, results: seq<Type>, used: set<string>, w0: Writer, w: Writer, k: Code)
    requires cs != [] && cs[0].tag.Some? && FreshCatches(cs, used) && !w0.dead
    requires Placed(ctx, LowerCatches(ctx.cfg, cs, w0, w).0, LowerCatches(ctx.cfg, cs, w0, w).1, k)
    requires ResetTs(LowerCatches(ctx.cfg, cs, w0, w).1, w0, results).sound
    ensures var (c1, w2) := LowerList(ctx.cfg, cs[0].exprs, ResetTs(w, w0, TagOf(ctx.cfg.env, cs[0].tag.value)));
            var (c2, w3) := LowerCatches(ctx.cfg, cs[1..], w0, w2);
            var w9 := LowerCatches(ctx.cfg, cs, w0, w).1;
            && Placed(ctx, c1, w2, Append(ElseLeft(c2), k)) && Placed(ctx, c2, w3, k)
            && (ElseLeft(c2) == Nil || LeavesList(cs[0].exprs))
            && ResetTs(w2, w0, results).sound && ResetTs(w3, w0, results).sound && w0.ts <= w2.ts
            && Grown(w, w2)
            && ResetsTo(w2, w0, results, w9) && ResetsTo(w3, w0, results, w9)
  {
    hide LowerList, LowerCatches, Fresh, Located, Grown, Within, Labels, ElseBound, ElseLeft, ShapeOf;
    var t := cs[0].tag.value;
    var tys := TagOf(ctx.cfg.env, t);
    var w1 := ResetTs(w, w0, tys);
    var (c1, w2) := LowerList(ctx.cfg, cs[0].exprs, w1);
    var (c2, w3) := LowerCatches(ctx.cfg, cs[1..], w0, w2);
    var unpack := UnpackCode(|w0.ts|, tys);
    var w9 := LowerCatches(ctx.cfg, cs, w0, w).1;
    CatchesUnfold(ctx.cfg, cs, w0, w);
    assert Labels(unpack) == {} by { NoLabels(UnpackCode(|w0.ts|, tys), |w0.ts|, tys); }
    GrownReset(w, w0, tys);
    GrownList(ctx.cfg, cs[0].exprs, w1);
    GrownCatches(ctx.cfg, cs[1..], w0, w2);
    GrownTrans(w, w1, w2);
    CatchesKeep(ctx.cfg, cs[1..], results, w0, w2);
    JumpsSame(ctx, w3, w9);
    ListLabels(ctx.cfg, cs[0].exprs, w1);
    CatchesLabels(ctx.cfg, cs[1..], w0, w2);
    FreshCatchesDisjoint(cs[1..], used + Names(cs[0].exprs));
    WithinDisjoint(Labels(c1), Labels(c2), Names(cs[0].exprs), CatchNames(cs[1..]));
    ClauseLocated(ctx.p, t, unpack, c1, c2, k);
    JumpsEarlier(ctx, w2, w3);
    ClauseResets(w2, w3, w0, results, w9);
  }

  lemma NoLabels(c: Code, base: nat, tys: seq<Type>)
    requires c == UnpackCode(base, tys)
    ensures Labels(c) == {}
  {}

  lemma CatchesUnfold(cfg: Config, cs: seq<Catch>, w0: Writer, w: Writer)
    requires cs != [] && cs[0].tag.Some?
    ensures var tys := TagOf(cfg.env, cs[0].tag.value);
            var (c1, w2) := LowerList(cfg, cs[0].exprs, ResetTs(w, w0, tys));
            var (c2, w3) := LowerCatches(cfg, cs[1..], w0, w2);
            LowerCatches(cfg, cs, w0, w) ==
              (Cons(IfTag(cs[0].tag.value, Append(UnpackCode(|w0.ts|, tys), c1), ElseBound(c2)), ElseLeft(c2)),
                  Chained(w3, cs[0].exprs, c1, c2))
  {
    hide LowerList, Chained, ResetTs, UnpackCode;
  }

  /** Cut back to the start of their block the two states differ in marks only. */
  ghost predicate ResetsTo(w: Writer, w0: Writer, results: seq<Type>, w9: Writer) {
    && ResetTs(w9, w0, results).ts == ResetTs(w, w0, results).ts
    && |w9.tries| == |w.tries| && ResetTs(w, w0, results).tries == w.tries && ResetTs(w9, w0, results).tries == w9.tries
    && forall j | 0 <= j < |w.tries| :: w9.tries[j].name == w.tries[j].name
  }

  lemma ClauseResets(w2: Writer, w3: Writer, w0: Writer, results: seq<Type>, w9: Writer)
    requires Grown(w2, w3) && !w0.dead && w0.ts <= w2.ts && w0.ts <= w9.ts
    requires w9.ts == w3.ts && w9.tries == w3.tries
    ensures ResetsTo(w2, w0, results, w9) && ResetsTo(w3, w0, results, w9)
  {
    GrownTries(w2, w3);
    assert w2.ts[..|w0.ts|] == w0.ts == w9.ts[..|w0.ts|];
  }

  /** If the end of the clauses has the types below the try, so had their start. */
  lemma CatchesKeep(cfg: Config, cs: seq<Catch>, results: seq<Type>, w0: Writer, w: Writer)
    requires !w0.dead && ResetTs(LowerCatches(cfg, cs, w0, w).1, w0, results).sound
    ensures w0.ts <= w.ts && w.sound
  {
    GrownCatches(cfg, cs, w0, w);
    if cs != [] {
      match cs[0].tag
      case None => GrownList(cfg, cs[0].exprs, ResetTs(w, w0, []));
      case Some(t) =>
        var w1 := ResetTs(w, w0, TagOf(cfg.env, t));
        GrownList(cfg, cs[0].exprs, w1);
        GrownCatches(cfg, cs[1..], w0, LowerList(cfg, cs[0].exprs, w1).1);
    }
  }

  /** A clause is followed by what its `else` does not govern; the rest stands where it would
      without the clause. */
  lemma ClauseLocated(p: Prog, t: nat, unpack: Code, c1: Code, c2: Code, k: Code)
    requires Located(p, Cons(IfTag(t, Append(unpack, c1), ElseBound(c2)), ElseLeft(c2)), k)
    requires Labels(unpack) == {} && Labels(c1) !! Labels(c2)
    ensures Located(p, c1, Append(ElseLeft(c2), k)) && Located(p, c2, k)
  {
    hide ElseBound, ElseLeft, Append, Find, Labels, Located;
    var a := Append(unpack, c1);
    LabelsAppend(unpack, c1);
    assert Located(p, a, Append(ElseLeft(c2), k)) && Located(p, c2, k) by { ElseLocated(p, t, a, c2, k); }
    LocatedAppend(p, unpack, c1, Append(ElseLeft(c2), k));
  }

  lemma ElseLocated(p: Prog, t: nat, a: Code, c2: Code, k: Code)
    requires Located(p, Cons(IfTag(t, a, ElseBound(c2)), ElseLeft(c2)), k) && Labels(a) !! Labels(c2)
    ensures Located(p, a, Append(ElseLeft(c2), k)) && Located(p, c2, k)
  {
    hide ElseBound, ElseLeft, Append, Find, Labels;
    var all := Cons(IfTag(t, a, ElseBound(c2)), ElseLeft(c2));
    ElseLabels(c2);
    ElseSplits(c2);
    assert Labels(all) == Labels(a) + Labels(c2) by { TagLabels(t, a, ElseBound(c2), ElseLeft(c2)); }
    forall l | l in Labels(a) + Labels(c2)
      ensures l in Labels(a) ==> Find(l, p.body, Nil) == Find(l, a, Append(ElseLeft(c2), k))
      ensures l in Labels(c2) ==> Find(l, p.body, Nil) == Find(l, c2, k)
    {
      assert l in Labels(all) && Find(l, p.body, Nil) == Find(l, all, k);
      FindElse(l, t, a, ElseBound(c2), ElseLeft(c2), k);
      FindLabels(l, a, Append(ElseLeft(c2), k));
    }
  }

  lemma TagLabels(t: nat, a: Code, b: Code, r: Code)
    ensures Labels(Cons(IfTag(t, a, b), r)) == Labels(a) + (Labels(b) + Labels(r))
  {}

  lemma FindElse(l: CLabel, t: nat, a: Code, b: Code, r: Code, k: Code)
    ensures Find(l, Cons(IfTag(t, a, b), r), k) == Else(Find(l, a, Append(r, k)), Find(l, Append(b, r), k))
  {
    hide Append;
    FindAppend(l, b, r, k);
    var kr := Append(r, k);
    assert FindStmt(l, IfTag(t, a, b), kr) == Else(Find(l, a, kr), Find(l, b, kr));
    assert Find(l, Cons(IfTag(t, a, b), r), k) == Else(FindStmt(l, IfTag(t, a, b), kr), Find(l, r, k));
    hide Find, FindStmt;
  }

  lemma ResetFrames(w: Writer, w0: Writer, tys: seq<Type>, ctx: Ctx, used: set<string>, ex: set<string>,
      below: seq<Value>, caught: Caught, l: string, x: Exn, m: Machine, s: Store)
    requires Handling(ctx, used, ex, w0, w, below, caught, l, x, m, s)
    ensures var w1 := ResetTs(w, w0, tys);
            && w1.ts == w0.ts + tys && Frames(w1.labels) == Frames(w.labels) && Grown(w, w1)
            && StacksOk(w, |below|, used) && |w0.ts| == |below| && w0.ts <= w.ts && !w0.dead
  {}

  lemma HandlingExn(ctx: Ctx, used: set<string>, ex: set<string>, w0: Writer, w: Writer, below: seq<Value>,
      caught: Caught, l: string, x: Exn, m: Machine, s: Store)
    requires Handling(ctx, used, ex, w0, w, below, caught, l, x, m, s)
    ensures s.exn == x && ExnOk(ctx.cfg.env, x) && Pending(ctx, w, below, caught[l := x], x, m, s) && |w0.ts| == |below|
  {}

  lemma ClauseEarlier(ctx: Ctx, used: set<string>, ex: set<string>, w0: Writer, tys: seq<Type>, w: Writer, w1: Writer,
      w9: Writer, below: seq<Value>, caught: Caught, l: string, x: Exn, m: Machine, s: Store, o: Outcome, k: Code,
      n: nat, n1: nat, fuel: nat, c: Conf)
    requires Handling(ctx, used, ex, w0, w, below, caught, l, x, m, s) && w1 == ResetTs(w, w0, tys)
    requires Arrived(ctx, w1, w9, below, caught[l := x], o, k, n, fuel, c) && n1 >= n
    ensures Arrived(ctx, w, w9, below, caught[l := x], o, k, n1, fuel, c)
  {
    hide Arrived;
    ResetFrames(w, w0, tys, ctx, used, ex, below, caught, l, x, m, s);
    hide Handling, Grown;
    ArrivedEarlier(ctx, w0.ts, w, w1, w9, used, below, caught[l := x], o, k, n, n1, fuel, c);
  }

  lemma ClauseSkipped(ctx: Ctx, used: set<string>, ex: set<string>, w0: Writer, w: Writer, w2: Writer, w9: Writer,
      below: seq<Value>, caught: Caught, l: string, x: Exn, m: Machine, s: Store, o: Outcome, k: Code, n: nat,
      n1: nat, fuel: nat, c: Conf)
    requires Handling(ctx, used, ex, w0, w, below, caught, l, x, m, s) && Grown(w, w2) && w0.ts <= w2.ts
    requires Arrived(ctx, w2, w9, below, caught[l := x], o, k, n, fuel, c) && n1 >= n
    ensures Arrived(ctx, w, w9, below, caught[l := x], o, k, n1, fuel, c)
  {
    hide Arrived;
    ResetFrames(w, w0, [], ctx, used, ex, below, caught, l, x, m, s);
    hide Handling, Grown;
    ArrivedEarlier(ctx, w0.ts, w, w2, w9, used, below, caught[l := x], o, k, n, n1, fuel, c);
  }

  /** A clause that takes the exception, followed by whatever of the chain's rest `c2` its
      `else` does not govern. */
  lemma {:induction false} SimTaken(ctx: Ctx, t: nat, es: seq<Expr>, c2: Code, results: seq<Type>, used: set<string>,
      ex: set<string>, w0: Writer, w: Writer, below: seq<Value>, caught: Caught, l: string, x: Exn, m: Machine,
      k: Code, s: Store, fuel: nat)
    returns (n: nat, c: Conf)
    requires x.tag == t && TypeBody(ctx.cfg.env, es, Frames(w.labels), ex, TagOf(ctx.cfg.env, t), results)
    requires Fresh(es, used) && Rethrown(es) <= ctx.cfg.rethrown
    requires Handling(ctx, used, ex, w0, w, below, caught, l, x, m, s)
    requires var (c1, w2) := LowerList(ctx.cfg, es, ResetTs(w, w0, TagOf(ctx.cfg.env, t)));
             Placed(ctx, c1, w2, Append(ElseLeft(c2), k)) && ResetTs(w2, w0, results).sound
    ensures var tys := TagOf(ctx.cfg.env, t);
            var (c1, w2) := LowerList(ctx.cfg, es, ResetTs(w, w0, tys));
            var o := EvalList(ctx.cfg.env, ctx.host, es, caught[l := x], m.(stack := x.args), fuel);
            && c == Steps(ctx.host, ctx.p,
                Running(Append(Cons(IfTag(t, Append(UnpackCode(|w0.ts|, tys), c1), ElseBound(c2)), ElseLeft(c2)), k),
                s), n)
            && Arrived(ctx, w, ResetTs(w2, w0, results), below, caught[l := x], o, Append(ElseLeft(c2), k), n, fuel, c)
            && (o.Next? ==> TypeList(ctx.cfg.env, es, Frames(w.labels), ex, tys).Live?)
    decreases fuel, es, 2
  {
    hide Ready, Placed, Arrived, Append, LowerList, TypeList, TypeBody, EvalList, Steps, Grown, Fresh, Rethrown,
        Handling, StacksOk, Rel, Pending, ResetTs, UnpackCode, ElseBound, ElseLeft;
    var tys := TagOf(ctx.cfg.env, t);
    var w1 := ResetTs(w, w0, tys);
    var (c1, w2) := LowerList(ctx.cfg, es, w1);
    var x1 := caught[l := x];
    var k1 := Append(ElseLeft(c2), k);
    var unpack := UnpackCode(|w0.ts|, tys);
    ResetFrames(w, w0, tys, ctx, used, ex, below, caught, l, x, m, s);
    HandlingExn(ctx, used, ex, w0, w, below, caught, l, x, m, s);
    TagRun(ctx, t, Append(unpack, c1), c2, k, s);
    AppendAssoc(unpack, c1, k1);
    var n0, s1 := Unpack(ctx, w0, w, w1, tys, below, x1, x, m, Append(c1, k1), s);
    ClauseReady(ctx, used, ex, w0, tys, w, below, caught, l, x, m, m.(stack := x.args), s, s1);
    var n1;
    n1, c := SimClause(ctx, es, results, used, ex, w0, tys, w1, below, x1, m.(stack := x.args), k1, s1, fuel);
    n := 1 + n0 + n1;
    var c0 := Running(Append(Cons(IfTag(t, Append(unpack, c1), ElseBound(c2)), ElseLeft(c2)), k), s);
    Chain(ctx, c0, 1, Running(Append(unpack, Append(c1, k1)), s), n0, Running(Append(c1, k1), s1));
    Chain(ctx, c0, 1 + n0, Running(Append(c1, k1), s1), n1, c);
    ClauseEarlier(ctx, used, ex, w0, tys, w, w1, ResetTs(w2, w0, results), below, caught, l, x, m, s,
                  EvalList(ctx.cfg.env, ctx.host, es, x1, m.(stack := x.args), fuel), k1, n1, n, fuel, c);
  }

  /** A clause's body. */
  lemma {:induction false} SimClause(ctx: Ctx, es: seq<Expr>, results: seq<Type>, used: set<string>, ex: set<string>,
      w0: Writer, tys: seq<Type>, w1: Writer, below: seq<Value>, caught: Caught, m: Machine, k: Code, s: Store,
      fuel: nat)
    returns (n: nat, c: Conf)
    requires TypeBody(ctx.cfg.env, es, Frames(w1.labels), ex, tys, results) && Fresh(es, used)
        && Rethrown(es) <= ctx.cfg.rethrown
    requires Ready(ctx, used, ex, w0.ts, tys, w1, below, caught, m, s) && !w0.dead
    requires Placed(ctx, LowerList(ctx.cfg, es, w1).0, LowerList(ctx.cfg, es, w1).1, k)
    requires ResetTs(LowerList(ctx.cfg, es, w1).1, w0, results).sound
    ensures c == Steps(ctx.host, ctx.p, Running(Append(LowerList(ctx.cfg, es, w1).0, k), s), n)
    ensures var o := EvalList(ctx.cfg.env, ctx.host, es, caught, m, fuel);
            && Arrived(ctx, w1, ResetTs(LowerList(ctx.cfg, es, w1).1, w0, results), below, caught, o, k, n, fuel, c)
            && (o.Next? ==> TypeList(ctx.cfg.env, es, Frames(w1.labels), ex, tys).Live?)
    decreases fuel, es, 1
  {
    hide Placed, Arrived, Append, LowerList, TypeList, EvalList, Steps, Fresh, Rethrown, Rel, StacksOk;
    BodyTyped(ctx.cfg.env, es, Frames(w1.labels), ex, tys, results);
    n, c := SimList(ctx, es, used, ex, w0.ts, tys, w1, below, caught, m, k, s, fuel);
    AfterBody(ctx.cfg, es, ex, tys, results, w0, w1);
    hide Grown, Ready;
    var w2 := LowerList(ctx.cfg, es, w1).1;
    ArrivedTries(ctx, w1, w2, ResetTs(w2, w0, results), below, caught,
        EvalList(ctx.cfg.env, ctx.host, es, caught, m, fuel), k, n, fuel, c);
  }
}

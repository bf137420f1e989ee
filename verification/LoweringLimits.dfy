/** Where the writer's code does not mean what the body means, with an input for each way: an
    `else` without braces in front of a catch_all, an `else` with nothing behind it, and code
    behind a throw that the writer's type stack does not fit or that it changes. */
module LoweringLimits {
  import opened Ir
  import opened Wasm
  import opened Typing
  import opened StackTypes
  import opened Validation
  import opened CLang
  import opened Statements
  import opened Lowering
  import opened LoweringShape
  import opened LoweringRel
  import opened LoweringSound
  import opened LoweringLeaf
  import opened LoweringTry
  import opened LoweringCorrect
  import opened LoweringMain
  import opened Reachable

  /** If nothing is written behind a throw, a validated body is in the main theorems' domain
      exactly if its text is well bound. */
  lemma ThrowsLastValid(env: Env, trace: bool, body: seq<Expr>)
    requires Validated(env, body) && Fresh(body, {}) && ThrowsLast(body)
    ensures Valid(env, trace, body) <==> WellBound(trace, {""}, body)
  {
    hide Fresh, ThrowsLast, ValidList, TypeList, StackList, WellBound;
    ValidatedIs(env, body);
    var ms := [FuncMark(env)];
    assert FramesOf(ms) == [Frame("", env.results)];
    var none: seq<Type> := [];
    assert none + none == none;
    ListStays(env, body, ms, {}, none, none);
  }

  // ----- what a late catch_all does -----

  /** A clause that takes the exception and comes to its end goes on with whatever its `else`
      does not govern, and that is something exactly if what stands behind the `else` is
      not a single statement. */
  lemma {:induction false} TakenRunsOn(ctx: Ctx, cs: seq<Catch>, l: string, x: Exn, results: seq<Type>,
      used: set<string>, near: set<string>, ex: set<string>, w0: Writer, w: Writer, below: seq<Value>, caught: Caught,
      m: Machine, k: Code, s: Store, fuel: nat)
    returns (n: nat, c: Conf)
    requires cs != [] && cs[0].tag == Some(x.tag)
    requires TypeCatches(ctx.cfg.env, cs, Frames(w.labels), ex, results) && ScopedCatches(cs, Frames(w.labels))
        && FreshCatches(cs, used)
    requires RethrownIn(cs) <= ctx.cfg.rethrown && Handling(ctx, used, ex, w0, w, below, caught, l, x, m, s)
    requires TextOk(w, near, used) && LastText(ctx.cfg.trace, near, cs[1..]).n >= 1
    requires var (c1, w2) := LowerList(ctx.cfg, cs[0].exprs, ResetTs(w, w0, TagOf(ctx.cfg.env, x.tag)));
             var left := ElseLeft(LowerCatches(ctx.cfg, cs[1..], w0, w2).0);
             Placed(ctx, c1, w2, Append(left, k)) && ResetTs(w2, w0, results).sound
    ensures c == Steps(ctx.host, ctx.p, Running(Append(LowerCatches(ctx.cfg, cs, w0, w).0, k), s), n)
    ensures var (c1, w2) := LowerList(ctx.cfg, cs[0].exprs, ResetTs(w, w0, TagOf(ctx.cfg.env, x.tag)));
            var left := ElseLeft(LowerCatches(ctx.cfg, cs[1..], w0, w2).0);
            var o := EvalHandler(ctx.cfg.env, ctx.host, cs, l, x, caught, m, fuel);
            && (o.Next? ==>
                c.Running? && c.code == Append(left, k)
                    && Rel(ctx, ResetTs(w2, w0, results), below, caught[l := x], o.m, c.s))
            && (left == Nil <==> LastText(ctx.cfg.trace, near, cs[1..]) == SINGLE)
  {
    hide LowerList, LowerCatches, TextOk, TypeCatches, ScopedCatches, FreshCatches, RethrownIn, Handling, Placed,
        ResetTs, TypeBody, TypeList, EvalList, EvalHandler, Steps, Append, ElseBound, ElseLeft, LastText, ShapeOf,
        Chained, Scoped, Fresh, Rel, Grown;
    var es, tys := cs[0].exprs, TagOf(ctx.cfg.env, x.tag);
    var w2 := LowerList(ctx.cfg, es, ResetTs(w, w0, tys)).1;
    var c2 := LowerCatches(ctx.cfg, cs[1..], w0, w2).0;
    HandlerUnfold(ctx, cs, l, x, results, used, ex, w0, w, caught, m, fuel);
    n, c := SimTaken(ctx, x.tag, es, c2, results, used, ex, w0, w, below, caught, l, x, m, k, s, fuel);
    ClauseGrown(ctx.cfg, es, w0, w, tys);
    TextGrown(w, w2, near, used, used + Names(es));
    ScopedRest(cs, Frames(w.labels));
    LastEqual(ctx.cfg, cs[1..], w0, w2, near, used + Names(es), ex, results);
    EqualSome(ShapeOf(c2), LastText(ctx.cfg.trace, near, cs[1..]));
    ElseSplits(c2);
  }

  lemma ScopedRest(cs: seq<Catch>, fs: seq<Frame>)
    requires cs != [] && ScopedCatches(cs, fs)
    ensures ScopedCatches(cs[1..], fs)
  {}

  // ----- reading lists one expression at a time -----

  lemma ListCons(env: Env, e: Expr, es: seq<Expr>, fs: seq<Frame>, ex: set<string>, st: Stack, keep: bool,
      ms: seq<Mark>, ts: seq<Type>, used: set<string>, trace: bool, near: set<string>)
    ensures ValidList(env, [e] + es, fs, ex, st) == (var r := ValidExpr(env, e, fs, ex, st);
        if r.None? then None else ValidList(env, es, fs, ex, r.value))
    ensures StackList(env, keep, [e] + es, ms, ts) ==
              (var r := StackExpr(env, keep, e, ms, ts);
               if r.None? || Ends(e) then r else StackList(env, keep && !Leaves(e), es, ms, r.value))
    ensures Fresh([e] + es, used) <==> FreshExpr(e, used) && Fresh(es, used + ExprNames(e))
    ensures WellBound(trace, near, [e] + es) <==>
        WellBoundExpr(trace, near, e) && (Ends(e) || WellBound(trace, near, es))
    ensures Text(trace, near, [e] + es) == Join(TextOf(trace, near, e), if Ends(e) then NOTHING
        else Text(trace, near, es))
  {
    hide ValidExpr, StackExpr, FreshExpr, WellBoundExpr, TextOf, Join, ExprNames;
    assert ([e] + es)[1..] == es;
  }

  lemma CatchCons(env: Env, c: Catch, cs: seq<Catch>, fs: seq<Frame>, ex: set<string>, results: seq<Type>, keep: bool,
      ms: seq<Mark>, base: seq<Type>, ts: seq<Type>, used: set<string>, trace: bool, near: set<string>)
    ensures ValidCatches(env, [c] + cs, fs, ex, results) <==>
              && (c.tag.Some? ==> c.tag.value < |env.tags|)
              && ValidBody(env, c.exprs, fs, ex, if c.tag == None then [] else TagOf(env, c.tag.value), results)
              && ValidCatches(env, cs, fs, ex, results)
    ensures StackCatches(env, keep, [c] + cs, ms, base, ts) ==
              (var b := Reset(keep, base, ts);
               if b.None? then None
               else if c.tag == None then StackList(env, keep, c.exprs, ms, b.value)
               else
                 var r := StackList(env, keep, c.exprs, ms, b.value + TagOf(env, c.tag.value));
                 if r.None? then None else StackCatches(env, keep, cs, ms, base, r.value))
    ensures FreshCatches([c] + cs, used) <==> Fresh(c.exprs, used) && FreshCatches(cs, used + Names(c.exprs))
    ensures LastText(trace, near, [c] + cs) == if c.tag == None then Text(trace, near, c.exprs)
        else LastText(trace, near, cs)
    ensures WellBoundCatches(trace, near, [c] + cs) <==>
              && WellBound(trace, near, c.exprs)
              && (c.tag.Some? ==>
                    && !Text(trace, near, c.exprs).hangs && LastText(trace, near, cs).n >= 1
                    && (LastText(trace, near, cs) == SINGLE || LeavesList(c.exprs))
                    && WellBoundCatches(trace, near, cs))
  {
    hide ValidBody, StackList, Reset, Fresh, Names, Text, WellBound, LeavesList;
    assert ([c] + cs)[1..] == cs;
  }

  lemma CodeCons(cfg: Config, e: Expr, es: seq<Expr>, w: Writer)
    ensures LowerList(cfg, [e] + es, w) ==
              (var (c1, w1) := LowerExpr(cfg, e, w);
               if Ends(e) then (c1, w1) else var (c2, w2) := LowerList(cfg, es, w1); (Append(c1, c2), w2))
    ensures Rethrown([e] + es) == RethrownBy(e) + if Ends(e) then {} else Rethrown(es)
  {
    hide LowerExpr, Append, RethrownBy;
    assert ([e] + es)[1..] == es;
  }

  lemma EvalCons(env: Env, host: Host, e: Expr, es: seq<Expr>, caught: Caught, m: Machine, fuel: nat)
    ensures EvalList(env, host, [e] + es, caught, m, fuel) ==
              (var o := Eval(env, host, e, caught, m, fuel);
                  if o.Next? then EvalList(env, host, es, caught, o.m, fuel) else o)
  {
    hide Eval;
    assert ([e] + es)[1..] == es;
  }

}

/** Where nothing is written behind a throw, validation alone makes the writer's type stack that
    of validation: no assertion fails and every block keeps the types below it. */
module Reachable {
  import opened Ir
  import opened Wasm
  import opened Typing
  import opened StackTypes
  import opened Lowering
  import opened LoweringShape

  /** A throw or rethrow is the last expression of its list. */
  predicate ThrowsLast(es: seq<Expr>)
    decreases es, 0
  {
    es == [] ||
    (&& ThrowsLastIn(es[0])
     && (Ends(es[0]) || (ThrowsLast(es[1..]) && (Leaves(es[0]) ==> es[1..] == []))))
  }

  predicate ThrowsLastIn(e: Expr)
    decreases e, 1
  {
    match e
    case Block(_, _, body) => ThrowsLast(body)
    case Loop(_, _, body) => ThrowsLast(body)
    case If(_, _, thn, els) => ThrowsLast(thn) && ThrowsLast(els)
    case Try(_, _, body, kind, cs, _) => ThrowsLast(body) && (kind == CatchTry ==> ThrowsLastCatches(cs))
    case _ => true
  }

  predicate ThrowsLastCatches(cs: seq<Catch>)
    decreases cs, 0
  {
    cs == [] || (ThrowsLast(cs[0].exprs) && ThrowsLastCatches(cs[1..]))
  }

  /** Every label in scope began below `size`. */
  predicate MarksBelow(ms: seq<Mark>, size: nat) {
    forall i | 0 <= i < |ms| :: ms[i].base <= size
  }

  /** The analysis of typed code above `tb`: it succeeds, does not reach below, and ends with
      the types of validation. */
  ghost predicate Stays(r: Option<seq<Type>>, ty: Typing, tb: seq<Type>) {
    r.Some? && tb <= r.value && (ty.Live? ==> r.value == tb + ty.ts)
  }

  lemma BranchStays(ms: seq<Mark>, v: Var, tb: seq<Type>, ts: seq<Type>)
    requires MarksBelow(ms, |tb|) && BranchOk(FramesOf(ms), v, ts)
    ensures BranchFits(ms, v, |tb + ts|)
  {}

  lemma InstrStays(env: Env, i: Instr, tb: seq<Type>, ts: seq<Type>)
    requires TypeInstr(env, i, ts) != Ill
    ensures Effect(env, i, tb + ts).0 <= |ts| && After(env, i, tb + ts) == tb + TypeInstr(env, i, ts).ts
        && TypeInstr(env, i, ts).Live?
  {
    FollowsInstr(Config(env, false, {}), i, tb, ts);
    hide After;
  }

  lemma {:induction false} ListStays(env: Env, es: seq<Expr>, ms: seq<Mark>, ex: set<string>, tb: seq<Type>,
      ts: seq<Type>)
    requires MarksBelow(ms, |tb|) && ThrowsLast(es) && TypeList(env, es, FramesOf(ms), ex, ts) != Ill
    ensures Stays(StackList(env, true, es, ms, tb + ts), TypeList(env, es, FramesOf(ms), ex, ts), tb)
    decreases es, 0
  {
    hide TypeExpr, StackExpr, ThrowsLastIn;
    if es != [] {
      var r := TypeExpr(env, es[0], FramesOf(ms), ex, ts);
      ExprStays(env, es[0], ms, ex, tb, ts);
      if r.Live? {
        LiveGoesOn(env, es[0], FramesOf(ms), ex, ts);
        ListStays(env, es[1..], ms, ex, tb, r.ts);
      } else {
        DeadLeaves(env, es[0], FramesOf(ms), ex, ts);
      }
    }
  }

  lemma DeadLeaves(env: Env, e: Expr, fs: seq<Frame>, ex: set<string>, ts: seq<Type>)
    requires TypeExpr(env, e, fs, ex, ts) == Dead
    ensures Leaves(e)
  {}

  lemma {:induction false} ExprStays(env: Env, e: Expr, ms: seq<Mark>, ex: set<string>, tb: seq<Type>, ts: seq<Type>)
    requires MarksBelow(ms, |tb|) && ThrowsLastIn(e) && TypeExpr(env, e, FramesOf(ms), ex, ts) != Ill
    ensures Stays(StackExpr(env, true, e, ms, tb + ts), TypeExpr(env, e, FramesOf(ms), ex, ts), tb)
    decreases e, 2
  {
    hide TypeBody, TypeCatches, StackList, StackCatches, StackBlock, ThrowsLast, ThrowsLastCatches, BranchOk,
        BranchFits;
    match e
    case Plain(i) => InstrStays(env, i, tb, ts);
    case Block(l, d, body) => BlockStays(env, Frame(l, d.sig.results), body, d.sig, ms, ex, tb, ts);
    case Loop(l, d, body) =>
      if body == [] { EmptyStays(env, e, ms, ex, tb, ts); }
      else { BlockStays(env, Frame(l, d.sig.params), body, d.sig, ms, ex, tb, ts); }
    case If(_, _, _, _) => IfStays(env, e, ms, ex, tb, ts);
    case Try(l, d, body, kind, _, _) =>
      if kind == PlainTry { BlockStays(env, Frame(l, d.sig.results), body, d.sig, ms, ex, tb, ts); }
      else { TryStays(env, e, ms, ex, tb, ts); }
    case _ => LeafStays(env, e, ms, ex, tb, ts);
  }

  lemma LeafStays(env: Env, e: Expr, ms: seq<Mark>, ex: set<string>, tb: seq<Type>, ts: seq<Type>)
    requires !e.Plain? && !e.Block? && !e.Loop? && !e.If? && !e.Try?
    requires MarksBelow(ms, |tb|) && TypeExpr(env, e, FramesOf(ms), ex, ts) != Ill
    ensures Stays(StackExpr(env, true, e, ms, tb + ts), TypeExpr(env, e, FramesOf(ms), ex, ts), tb)
  {
    hide BranchFits, BranchOk, FramesOf, TypeList, StackList;
    match e
    case Br(v) => BranchStays(ms, v, tb, ts);
    case BrIf(v) => PopStays(tb, ts); BranchStays(ms, v, tb, ts[..|ts| - 1]);
    case BrTable(vs, d) =>
      PopStays(tb, ts);
      BranchStays(ms, d, tb, ts[..|ts| - 1]);
      forall v | v in vs ensures BranchFits(ms, v, |tb + ts[..|ts| - 1]|) { BranchStays(ms, v, tb, ts[..|ts| - 1]); }
    case Return =>
      assert Resolve(FramesOf(ms), Index(|ms| - 1)) == Some(0);
      BranchStays(ms, Index(|ms| - 1), tb, ts);
    case _ =>
  }

  lemma PopStays(tb: seq<Type>, ts: seq<Type>)
    requires EndsWith(ts, [I32])
    ensures |ts| >= 1 && DropN(tb + ts, 1) == tb + ts[..|ts| - 1]
  {}

  lemma EmptyStays(env: Env, e: Expr, ms: seq<Mark>, ex: set<string>, tb: seq<Type>, ts: seq<Type>)
    requires e.Loop? && e.body == [] && TypeExpr(env, e, FramesOf(ms), ex, ts) != Ill
    ensures Stays(StackExpr(env, true, e, ms, tb + ts), TypeExpr(env, e, FramesOf(ms), ex, ts), tb)
  {
    var sig := e.decl.sig;
    assert TypeList(env, e.body, FramesOf(ms) + [Frame(e.name, sig.params)], ex, sig.params) == Live(sig.params);
    assert ts == ts[..|ts| - |sig.params|] + sig.params;
  }

  /** A block's body above `base`, and the stack cut back to it. */
  lemma {:induction false} BodyStays(env: Env, body: seq<Expr>, ms: seq<Mark>, f: Frame, ex: set<string>,
      base: seq<Type>, params: seq<Type>, results: seq<Type>)
    requires MarksBelow(ms, |base|) && ThrowsLast(body)
    requires TypeBody(env, body, FramesOf(ms) + [f], ex, params, results)
    ensures var r := StackList(env, true, body, ms + [Mark(f, |base|)], base + params);
            r.Some? && Reset(true, base, r.value) == Some(base)
    decreases body, 1
  {
    hide StackList, TypeList;
    var ms1 := ms + [Mark(f, |base|)];
    assert FramesOf(ms1) == FramesOf(ms) + [f];
    ListStays(env, body, ms1, ex, base, params);
    ResetKept(base, StackList(env, true, body, ms1, base + params).value);
  }

  lemma ResetKept(base: seq<Type>, ts: seq<Type>)
    requires base <= ts
    ensures Reset(true, base, ts) == Some(base)
  {
    assert ts[..|base|] == base;
  }

  lemma {:induction false} BlockStays(env: Env, f: Frame, body: seq<Expr>, sig: FuncType, ms: seq<Mark>,
      ex: set<string>, tb: seq<Type>, ts: seq<Type>)
    requires MarksBelow(ms, |tb|) && ThrowsLast(body) && EndsWith(ts, sig.params)
    requires TypeBody(env, body, FramesOf(ms) + [f], ex, sig.params, sig.results)
    ensures StackBlock(env, true, f, body, sig, ms, tb + ts) == Some(tb + (ts[..|ts| - |sig.params|] + sig.results))
    decreases body, 2
  {
    hide TypeBody, StackList;
    DropParams(tb, ts, sig.params);
    BodyStays(env, body, ms, f, ex, tb + ts[..|ts| - |sig.params|], sig.params, sig.results);
    assert tb + ts[..|ts| - |sig.params|] + sig.results == tb + (ts[..|ts| - |sig.params|] + sig.results);
  }

  lemma {:induction false} IfStays(env: Env, e: Expr, ms: seq<Mark>, ex: set<string>, tb: seq<Type>, ts: seq<Type>)
    requires e.If? && MarksBelow(ms, |tb|) && ThrowsLastIn(e) && TypeExpr(env, e, FramesOf(ms), ex, ts) != Ill
    ensures Stays(StackExpr(env, true, e, ms, tb + ts), TypeExpr(env, e, FramesOf(ms), ex, ts), tb)
    decreases e, 1
  {
    hide TypeBody, StackList, Reset;
    var (l, sig) := (e.name, e.decl.sig);
    PopStays(tb, ts);
    var ts0 := ts[..|ts| - 1];
    DropParams(tb, ts0, sig.params);
    var base := tb + ts0[..|ts0| - |sig.params|];
    BodyStays(env, e.thn, ms, Frame(l, sig.results), ex, base, sig.params, sig.results);
    BodyStays(env, e.els, ms, Frame(l, sig.results), ex, base, sig.params, sig.results);
  }

  lemma {:induction false} TryStays(env: Env, e: Expr, ms: seq<Mark>, ex: set<string>, tb: seq<Type>, ts: seq<Type>)
    requires e.Try? && e.kind != PlainTry && MarksBelow(ms, |tb|) && ThrowsLastIn(e)
        && TypeExpr(env, e, FramesOf(ms), ex, ts) != Ill
    ensures Stays(StackExpr(env, true, e, ms, tb + ts), TypeExpr(env, e, FramesOf(ms), ex, ts), tb)
    decreases e, 1
  {
    hide TypeBody, TypeCatches, StackList, StackCatches, Reset, Resolve, ThrowsLast, ThrowsLastCatches, FramesOf,
        BranchOk, BranchFits;
    var (l, sig) := (e.name, e.decl.sig);
    var f := Frame(l, sig.results);
    DropParams(tb, ts, sig.params);
    var base := tb + ts[..|ts| - |sig.params|];
    BodyStays(env, e.body, ms, f, ex, base, sig.params, sig.results);
    if e.kind == CatchTry {
      assert FramesOf(ms + [Mark(f, |base|)]) == FramesOf(ms) + [f];
      CatchesStay(env, e.catches, ms + [Mark(f, |base|)], ex + {l}, base, base, sig.results);
    }
  }

  lemma {:induction false} CatchesStay(env: Env, cs: seq<Catch>, ms: seq<Mark>, ex: set<string>, base: seq<Type>,
      ts: seq<Type>, results: seq<Type>)
    requires MarksBelow(ms, |base|) && ThrowsLastCatches(cs) && TypeCatches(env, cs, FramesOf(ms), ex, results)
        && base <= ts
    ensures var r := StackCatches(env, true, cs, ms, base, ts); r.Some? && Reset(true, base, r.value) == Some(base)
    decreases cs, 0
  {
    hide StackList, TypeList;
    ResetKept(base, ts);
    if cs != [] {
      var tys := if cs[0].tag == None then [] else TagOf(env, cs[0].tag.value);
      assert base + [] == base;
      ListStays(env, cs[0].exprs, ms, ex, base, tys);
      var r := StackList(env, true, cs[0].exprs, ms, base + tys);
      ResetKept(base, r.value);
      if cs[0].tag.Some? { CatchesStay(env, cs[1..], ms, ex, base, r.value, results); }
    }
  }
}

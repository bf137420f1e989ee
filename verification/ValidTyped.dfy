/** Code without anything behind a transfer of control is validated exactly if it is typed. */
module ValidTyped {
  import opened Ir
  import opened Wasm
  import opened Typing
  import opened Validation

  /** Every transfer of control is the last expression of its list, and the labels of every table
      take equally many operands. */
  predicate Straight(es: seq<Expr>, fs: seq<Frame>)
    decreases es, 0
  {
    es == [] || (StraightIn(es[0], fs) && if Leaves(es[0]) then es[1..] == [] else Straight(es[1..], fs))
  }

  predicate StraightIn(e: Expr, fs: seq<Frame>)
    decreases e, 1
  {
    match e
    case BrTable(vs, d) => forall v | v in vs :: Arity(fs, v) == Arity(fs, d)
    case Block(l, d, body) => Straight(body, fs + [Frame(l, d.sig.results)])
    case Loop(l, d, body) => Straight(body, fs + [Frame(l, d.sig.params)])
    case If(l, d, thn, els) =>
      Straight(thn, fs + [Frame(l, d.sig.results)]) && Straight(els, fs + [Frame(l, d.sig.results)])
    case Try(l, d, body, kind, cs, _) =>
      Straight(body, fs + [Frame(l, d.sig.results)])
          && (kind == CatchTry ==> StraightCatches(cs, fs + [Frame(l, d.sig.results)]))
    case _ => true
  }

  predicate StraightCatches(cs: seq<Catch>, fs: seq<Frame>)
    decreases cs, 0
  {
    cs == [] || (Straight(cs[0].exprs, fs) && StraightCatches(cs[1..], fs))
  }

  /** How many operands a label takes. */
  function Arity(fs: seq<Frame>, v: Var): nat {
    var sig := LabelTypes(fs, v);
    if sig.Some? then |sig.value| else 0
  }

  /** The stack behind typed code. */
  function StackOf(ty: Typing): Stack { if ty.Live? then Stack(false, Known(ty.ts)) else UNREACHED }

  lemma InstrTyped(env: Env, i: Instr, ts: seq<Type>)
    requires TypeInstr(env, i, ts) != Ill
    ensures ValidInstr(env, i, Stack(false, Known(ts))) == Some(StackOf(TypeInstr(env, i, ts)))
  {
    if i == Select { SelectTyped(env, ts); return; }
    hide Apply, Shift, ValidSelect;
    match i
    case Const(v) => ApplyTyped(ts, [], [v.ty]);
    case Binary(ty, _) => ApplyTyped(ts, [ty, ty], [ty]);
    case Compare(ty, _) => ApplyTyped(ts, [ty, ty], [I32]);
    case Eqz(ty) => ApplyTyped(ts, [ty], [I32]);
    case Drop => if ts != [] { assert Known(ts)[..|ts| - 1] == Known(ts[..|ts| - 1]); }
    case Nop =>
    case LocalGet(x) => if x < |env.locals| { ApplyTyped(ts, [], [env.locals[x]]); }
    case LocalSet(x) => if x < |env.locals| { ApplyTyped(ts, [env.locals[x]], []); }
    case LocalTee(x) => if x < |env.locals| { ApplyTyped(ts, [env.locals[x]], [env.locals[x]]); }
    case GlobalGet(x) => if x < |env.globals| { ApplyTyped(ts, [], [env.globals[x]]); }
    case GlobalSet(x) => if x < |env.globals| { ApplyTyped(ts, [env.globals[x]], []); }
    case Load(acc, _, _, _) => ApplyTyped(ts, [I32], [acc.ty]);
    case Store(acc, _, _, _) => ApplyTyped(ts, [I32, acc.ty], []);
    case Call(f) => if f < |env.funcs| { ApplyTyped(ts, env.funcs[f].params, env.funcs[f].results); }
  }

  lemma ApplyTyped(ts: seq<Type>, pops: seq<Type>, pushes: seq<Type>)
    ensures Shift(ts, pops, pushes) != Ill ==>
        Apply(Stack(false, Known(ts)), pops, pushes) == Some(StackOf(Shift(ts, pops, pushes)))
    ensures Shift(ts, pops, pushes) != Dead
  {
    hide Apply;
    ApplyKnown(ts, pops, pushes);
  }

  lemma SelectTyped(env: Env, ts: seq<Type>)
    requires TypeInstr(env, Select, ts) != Ill
    ensures ValidInstr(env, Select, Stack(false, Known(ts))) == Some(StackOf(TypeInstr(env, Select, ts)))
  {
    var n := |ts|;
    var t := ts[n - 3];
    assert ts[n - 3..] == [t, t, I32];
    assert ts[n - 1] == ts[n - 3..][2] && ts[n - 2] == ts[n - 3..][1];
    assert Known(ts)[..n - 1][..n - 2][..n - 3] == Known(ts[..n - 3]);
    assert Known(ts[..n - 3]) + [Some(t)] == Known(ts[..n - 3] + [t]);
  }

  lemma {:induction false} ListTyped(env: Env, es: seq<Expr>, fs: seq<Frame>, ex: set<string>, ts: seq<Type>)
    requires Straight(es, fs) && TypeList(env, es, fs, ex, ts) != Ill
    ensures ValidList(env, es, fs, ex, Stack(false, Known(ts))) == Some(StackOf(TypeList(env, es, fs, ex, ts)))
    decreases es, 0
  {
    hide ValidExpr, TypeExpr, StraightIn;
    if es != [] {
      ExprTyped(env, es[0], fs, ex, ts);
      var r := TypeExpr(env, es[0], fs, ex, ts);
      if r.Live? {
        LiveStays(env, es[0], fs, ex, ts);
        ListTyped(env, es[1..], fs, ex, r.ts);
      } else {
        DeadLeaves(env, es[0], fs, ex, ts);
      }
    }
  }

  lemma LiveStays(env: Env, e: Expr, fs: seq<Frame>, ex: set<string>, ts: seq<Type>)
    requires TypeExpr(env, e, fs, ex, ts).Live?
    ensures !Leaves(e)
  {}

  lemma DeadLeaves(env: Env, e: Expr, fs: seq<Frame>, ex: set<string>, ts: seq<Type>)
    requires TypeExpr(env, e, fs, ex, ts) == Dead
    ensures Leaves(e)
  {
    hide TypeBody, TypeCatches, Shift, BranchOk, TypeInstr, Resolve;
    match e
    case Plain(i) => InstrLive(env, i, ts);
    case Block(_, d, _) => ShiftLive(ts, d.sig.params, d.sig.results);
    case Loop(_, d, _) => ShiftLive(ts, d.sig.params, d.sig.results);
    case If(_, d, _, _) => if ts != [] { ShiftLive(ts[..|ts| - 1], d.sig.params, d.sig.results); }
    case Try(_, d, _, _, _, _) => ShiftLive(ts, d.sig.params, d.sig.results);
    case _ =>
  }

  lemma InstrLive(env: Env, i: Instr, ts: seq<Type>)
    ensures TypeInstr(env, i, ts) != Dead
  {
    hide EndsWith;
  }

  lemma ShiftLive(ts: seq<Type>, pops: seq<Type>, pushes: seq<Type>)
    ensures Shift(ts, pops, pushes) != Dead
  {}

  lemma {:induction false} ExprTyped(env: Env, e: Expr, fs: seq<Frame>, ex: set<string>, ts: seq<Type>)
    requires StraightIn(e, fs) && TypeExpr(env, e, fs, ex, ts) != Ill
    ensures ValidExpr(env, e, fs, ex, Stack(false, Known(ts))) == Some(StackOf(TypeExpr(env, e, fs, ex, ts)))
    decreases e, 2
  {
    hide ValidBody, TypeBody, ValidCatches, TypeCatches, Straight, StraightCatches, ValidInstr, TypeInstr, Apply, Shift,
        Resolve, StackOf;
    match e
    case Plain(i) => InstrTyped(env, i, ts);
    case Block(l, d, body) =>
      BodyTyped(env, body, fs + [Frame(l, d.sig.results)], ex, d.sig.params, d.sig.results);
      ApplyTyped(ts, d.sig.params, d.sig.results);
    case Loop(l, d, body) =>
      BodyTyped(env, body, fs + [Frame(l, d.sig.params)], ex, d.sig.params, d.sig.results);
      ApplyTyped(ts, d.sig.params, d.sig.results);
    case If(l, d, thn, els) =>
      PopTyped(ts, I32);
      BodyTyped(env, thn, fs + [Frame(l, d.sig.results)], ex, d.sig.params, d.sig.results);
      BodyTyped(env, els, fs + [Frame(l, d.sig.results)], ex, d.sig.params, d.sig.results);
      ApplyTyped(ts[..|ts| - 1], d.sig.params, d.sig.results);
    case Try(l, d, body, kind, catches, delegate) =>
      var fs1 := fs + [Frame(l, d.sig.results)];
      BodyTyped(env, body, fs1, ex, d.sig.params, d.sig.results);
      if kind == CatchTry { CatchesTyped(env, catches, fs1, ex + {l}, d.sig.results); }
      ApplyTyped(ts, d.sig.params, d.sig.results);
    case _ => LeafTyped(env, e, fs, ex, ts);
  }

  lemma PopTyped(ts: seq<Type>, t: Type)
    requires EndsWith(ts, [t])
    ensures ts != [] && Pop(Stack(false, Known(ts)), t) == Some(Stack(false, Known(ts[..|ts| - 1])))
  {
    assert ts[|ts| - 1..] == [ts[|ts| - 1]];
    assert Known(ts)[..|ts| - 1] == Known(ts[..|ts| - 1]);
  }

  /** The operands of a branch can be taken off. */
  lemma BranchTyped(fs: seq<Frame>, v: Var, ts: seq<Type>)
    requires BranchOk(fs, v, ts)
    ensures PopLabel(fs, v, Stack(false, Known(ts))).Some? && LabelTypes(fs, v).Some?
    ensures Apply(Stack(false, Known(ts)), LabelTypes(fs, v).value, LabelTypes(fs, v).value)
        == Some(Stack(false, Known(ts)))
  {
    hide Resolve, PopAll, EndsWith;
    var sig := LabelTypes(fs, v).value;
    PopAllKnown(ts, sig);
    ApplyKnown(ts, sig, sig);
    ShiftSame(ts, sig);
  }

  lemma LeafTyped(env: Env, e: Expr, fs: seq<Frame>, ex: set<string>, ts: seq<Type>)
    requires !e.Plain? && !e.Block? && !e.Loop? && !e.If? && !e.Try?
    requires StraightIn(e, fs) && TypeExpr(env, e, fs, ex, ts) != Ill
    ensures ValidExpr(env, e, fs, ex, Stack(false, Known(ts))) == Some(StackOf(TypeExpr(env, e, fs, ex, ts)))
  {
    hide PopAll, EndsWith, Resolve, BranchOk, LabelTypes, Apply, Pop, PopLabel;
    match e
    case Br(v) => BranchTyped(fs, v, ts);
    case BrIf(v) =>
      PopTyped(ts, I32);
      BranchTyped(fs, v, ts[..|ts| - 1]);
    case BrTable(vs, d) =>
      PopTyped(ts, I32);
      var ts1 := ts[..|ts| - 1];
      BranchTyped(fs, d, ts1);
      PopLabelIs(fs, d, Stack(false, Known(ts1)));
      forall v | v in vs
        ensures PopLabel(fs, v, Stack(false, Known(ts1))).Some? && LabelTypes(fs, v).Some?
            && |LabelTypes(fs, v).value| == |LabelTypes(fs, d).value|
      {
        BranchTyped(fs, v, ts1);
        assert Arity(fs, v) == Arity(fs, d);
      }
    case Return => PopAllKnown(ts, fs[0].sig);
    case Throw(t) => PopAllKnown(ts, env.tags[t]);
    case _ =>
  }

  lemma PopLabelIs(fs: seq<Frame>, v: Var, st: Stack)
    requires LabelTypes(fs, v).Some?
    ensures PopLabel(fs, v, st) == PopAll(st, LabelTypes(fs, v).value)
  {
    hide PopAll, LabelTypes;
  }

  lemma {:induction false} BodyTyped(env: Env, es: seq<Expr>, fs: seq<Frame>, ex: set<string>, params: seq<Type>,
      results: seq<Type>)
    requires Straight(es, fs) && TypeBody(env, es, fs, ex, params, results)
    ensures ValidBody(env, es, fs, ex, params, results)
    decreases es, 1
  {
    hide ValidList, TypeList, Straight;
    ListTyped(env, es, fs, ex, params);
    if TypeList(env, es, fs, ex, params).Live? {
      PopAllKnown(results, results);
    } else {
      PopAllUnreached(results);
    }
  }

  lemma {:induction false} PopAllUnreached(sig: seq<Type>)
    ensures PopAll(UNREACHED, sig) == Some(UNREACHED)
    decreases |sig|
  {
    if sig != [] { PopAllUnreached(sig[..|sig| - 1]); }
  }

  lemma {:induction false} CatchesTyped(env: Env, cs: seq<Catch>, fs: seq<Frame>, ex: set<string>, results: seq<Type>)
    requires StraightCatches(cs, fs) && TypeCatches(env, cs, fs, ex, results)
    ensures ValidCatches(env, cs, fs, ex, results)
    decreases cs, 0
  {
    hide ValidBody, TypeBody, Straight;
    if cs != [] {
      BodyTyped(env, cs[0].exprs, fs, ex, if cs[0].tag == None then [] else env.tags[cs[0].tag.value], results);
      CatchesTyped(env, cs[1..], fs, ex, results);
    }
  }

  /** Nothing that the typing of the proofs accepts is refused by validation, if there is nothing
      that only validation looks at; and the reverse. */
  lemma StraightValidated(env: Env, body: seq<Expr>)
    requires Straight(body, [Frame("", env.results)])
    ensures Validated(env, body) <==> TypeBody(env, body, [Frame("", env.results)], {}, [], env.results)
  {
    hide TypeBody, ValidBody, Straight;
    BodyAgrees(env, body, [Frame("", env.results)], {}, [], env.results);
    if TypeBody(env, body, [Frame("", env.results)], {}, [], env.results) {
      BodyTyped(env, body, [Frame("", env.results)], {}, [], env.results);
    }
  }
}

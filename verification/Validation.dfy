/** Validation of function bodies by the algorithm in the appendix of the WebAssembly Core
    Specification: after an unconditional transfer of control the operand stack is
    polymorphic, and the code there is checked all the same. */
module Validation {
  import opened Ir
  import opened Wasm
  import opened Typing
  import opened StackTypes

  /** The operand stack of the innermost block; None is an operand of unknown type. When
      `dead`, as many more unknown operands as are asked for lie below. */
  datatype Stack = Stack(dead: bool, ts: seq<Option<Type>>)

  function Known(ts: seq<Type>): (ks: seq<Option<Type>>)
    ensures |ks| == |ts| && forall i | 0 <= i < |ts| :: ks[i] == Some(ts[i])
  {
    seq(|ts|, i requires 0 <= i < |ts| => Some(ts[i]))
  }

  function PopAny(st: Stack): Option<(Option<Type>, Stack)> {
    if st.ts != [] then Some((st.ts[|st.ts| - 1], st.(ts := st.ts[..|st.ts| - 1])))
    else if st.dead then Some((None, st))
    else None
  }

  function Pop(st: Stack, t: Type): Option<Stack> {
    var r :- PopAny(st);
    if r.0 == None || r.0 == Some(t) then Some(r.1) else None
  }

  function PopAll(st: Stack, ts: seq<Type>): Option<Stack>
    decreases |ts|
  {
    if ts == [] then Some(st)
    else
      var st1 :- Pop(st, ts[|ts| - 1]);
      PopAll(st1, ts[..|ts| - 1])
  }

  function Push(st: Stack, ts: seq<Type>): Stack { st.(ts := st.ts + Known(ts)) }

  function Apply(st: Stack, pops: seq<Type>, pushes: seq<Type>): Option<Stack> {
    var st1 :- PopAll(st, pops);
    Some(Push(st1, pushes))
  }

  /** The two alternatives of a select have one type, which may be unknown. */
  function ValidSelect(st: Stack): Option<Stack> {
    var st1 :- Pop(st, I32);
    var r1 :- PopAny(st1);
    var r2 :- PopAny(r1.1);
    if r1.0 == None || r2.0 == None || r1.0 == r2.0
    then Some(r2.1.(ts := r2.1.ts + [if r1.0 == None then r2.0 else r1.0])) else None
  }

  function ValidInstr(env: Env, i: Instr, st: Stack): Option<Stack> {
    match i
    case Const(v) => Apply(st, [], [v.ty])
    case Binary(ty, _) => if IsInt(ty) then Apply(st, [ty, ty], [ty]) else None
    case Compare(ty, _) => if IsInt(ty) then Apply(st, [ty, ty], [I32]) else None
    case Eqz(ty) => if IsInt(ty) then Apply(st, [ty], [I32]) else None
    case Drop => var r :- PopAny(st); Some(r.1)
    case Select => ValidSelect(st)
    case Nop => Some(st)
    case LocalGet(x) => if x < |env.locals| then Apply(st, [], [env.locals[x]]) else None
    case LocalSet(x) => if x < |env.locals| then Apply(st, [env.locals[x]], []) else None
    case LocalTee(x) => if x < |env.locals| then Apply(st, [env.locals[x]], [env.locals[x]]) else None
    case GlobalGet(x) => if x < |env.globals| then Apply(st, [], [env.globals[x]]) else None
    case GlobalSet(x) => if x < |env.globals| then Apply(st, [env.globals[x]], []) else None
    case Load(acc, _, _, _) => Apply(st, [I32], [acc.ty])
    case Store(acc, _, _, _) => Apply(st, [I32, acc.ty], [])
    case Call(f) => if f < |env.funcs| then Apply(st, env.funcs[f].params, env.funcs[f].results) else None
  }

  /** The types a branch to `v` takes. */
  function LabelTypes(fs: seq<Frame>, v: Var): Option<seq<Type>> {
    var i :- Resolve(fs, v);
    if i < |fs| then Some(fs[i].sig) else None
  }

  /** The stack at a branch to `v` after the label's operands are taken off. */
  function PopLabel(fs: seq<Frame>, v: Var, st: Stack): Option<Stack> {
    var sig :- LabelTypes(fs, v);
    PopAll(st, sig)
  }

  const UNREACHED := Stack(true, [])

  function ValidList(env: Env, es: seq<Expr>, fs: seq<Frame>, ex: set<string>, st: Stack): Option<Stack>
    decreases es, 0
  {
    if es == [] then Some(st)
    else
      var st1 :- ValidExpr(env, es[0], fs, ex, st);
      ValidList(env, es[1..], fs, ex, st1)
  }

  function ValidExpr(env: Env, e: Expr, fs: seq<Frame>, ex: set<string>, st: Stack): Option<Stack>
    decreases e, 2
  {
    match e
    case Plain(i) => ValidInstr(env, i, st)
    case Br(v) => var _ :- PopLabel(fs, v, st); Some(UNREACHED)
    case BrIf(v) =>
      var st1 :- Pop(st, I32);
      var sig :- LabelTypes(fs, v);
      Apply(st1, sig, sig)
    case BrTable(vs, d) =>
      var st1 :- Pop(st, I32);
      var sig :- LabelTypes(fs, d);
      var _ :- PopAll(st1, sig);
      if forall v | v in vs :: PopLabel(fs, v, st1).Some?
          && |LabelTypes(fs, v).value| == |sig| then Some(UNREACHED) else None
    case Return => if fs == [] then None else var _ :- PopAll(st, fs[0].sig); Some(UNREACHED)
    case Unreachable => Some(UNREACHED)
    case Throw(t) => if t < |env.tags| then var _ :- PopAll(st, env.tags[t]); Some(UNREACHED) else None
    case Rethrow(v) => if v.Name? && v.name in ex then Some(UNREACHED) else None
    case Block(l, d, body) =>
      if ValidBody(env, body, fs + [Frame(l, d.sig.results)], ex, d.sig.params, d.sig.results)
      then Apply(st, d.sig.params, d.sig.results) else None
    case Loop(l, d, body) =>
      if ValidBody(env, body, fs + [Frame(l, d.sig.params)], ex, d.sig.params, d.sig.results)
      then Apply(st, d.sig.params, d.sig.results) else None
    case If(l, d, thn, els) =>
      var st1 :- Pop(st, I32);
      var fs1 := fs + [Frame(l, d.sig.results)];
      if ValidBody(env, thn, fs1, ex, d.sig.params, d.sig.results)
          && ValidBody(env, els, fs1, ex, d.sig.params, d.sig.results)
      then Apply(st1, d.sig.params, d.sig.results) else None
    case Try(l, d, body, kind, catches, delegate) =>
      var fs1 := fs + [Frame(l, d.sig.results)];
      if && ValidBody(env, body, fs1, ex, d.sig.params, d.sig.results)
         && (kind == CatchTry ==> catches != [] && ValidCatches(env, catches, fs1, ex + {l}, d.sig.results))
         && (kind == DelegateTry ==> Resolve(fs, delegate).Some?)
      then Apply(st, d.sig.params, d.sig.results) else None
  }

  /** At the end of a block exactly its results are left. */
  predicate ValidBody(env: Env, es: seq<Expr>, fs: seq<Frame>, ex: set<string>, params: seq<Type>, results: seq<Type>)
    decreases es, 1
  {
    match ValidList(env, es, fs, ex, Stack(false, Known(params)))
    case None => false
    case Some(st) => PopAll(st, results).Some? && PopAll(st, results).value.ts == []
  }

  predicate ValidCatches(env: Env, cs: seq<Catch>, fs: seq<Frame>, ex: set<string>, results: seq<Type>)
    decreases cs, 0
  {
    cs == [] ||
    ((match cs[0].tag
      case None => ValidBody(env, cs[0].exprs, fs, ex, [], results)
      case Some(t) => t < |env.tags| && ValidBody(env, cs[0].exprs, fs, ex, env.tags[t], results))
     && ValidCatches(env, cs[1..], fs, ex, results))
  }

  /** A function body that validation accepts. */
  predicate Validated(env: Env, body: seq<Expr>) {
    ValidBody(env, body, [Frame("", env.results)], {}, [], env.results)
  }

  // ----- where control can reach, validation is typing -----

  lemma {:induction false} PopAllKnown(ts: seq<Type>, sig: seq<Type>)
    ensures PopAll(Stack(false, Known(ts)), sig) ==
              if EndsWith(ts, sig) then Some(Stack(false, Known(ts[..|ts| - |sig|]))) else None
    decreases |sig|
  {
    if sig == [] {
      assert ts[..|ts|] == ts;
    } else if ts != [] {
      hide EndsWith;
      var (ts1, sig1) := (ts[..|ts| - 1], sig[..|sig| - 1]);
      assert Known(ts)[..|ts| - 1] == Known(ts1);
      PopAllKnown(ts1, sig1);
      EndsWithLast(ts, sig);
    }
  }

  lemma EndsWithLast(ts: seq<Type>, sig: seq<Type>)
    requires sig != [] && ts != []
    ensures var (ts1, sig1) := (ts[..|ts| - 1], sig[..|sig| - 1]);
            && (EndsWith(ts, sig) <==> ts[|ts| - 1] == sig[|sig| - 1] && EndsWith(ts1, sig1))
            && (|sig| <= |ts| ==> ts1[..|ts1| - |sig1|] == ts[..|ts| - |sig|])
  {
    if |sig| <= |ts| {
      var (ts1, sig1) := (ts[..|ts| - 1], sig[..|sig| - 1]);
      assert ts[|ts| - |sig|..] == ts1[|ts1| - |sig1|..] + [ts[|ts| - 1]];
      assert sig == sig1 + [sig[|sig| - 1]];
      assert ts[|ts| - |sig|..][..|sig| - 1] == ts1[|ts1| - |sig1|..];
    }
  }

  lemma ApplyKnown(ts: seq<Type>, pops: seq<Type>, pushes: seq<Type>)
    ensures Apply(Stack(false, Known(ts)), pops, pushes) ==
              match Shift(ts, pops, pushes) case Live(ts1) => Some(Stack(false, Known(ts1))) case _ => None
  {
    PopAllKnown(ts, pops);
    if EndsWith(ts, pops) {
      assert Known(ts[..|ts| - |pops|]) + Known(pushes) == Known(ts[..|ts| - |pops|] + pushes);
    }
  }

  /** What validation says of the next stack is what typing says. */
  predicate Agrees(r: Option<Stack>, ty: Typing) {
    r.Some? ==> if r.value.dead then ty == Dead else ty.Live? && r.value.ts == Known(ty.ts)
  }

  lemma InstrAgrees(env: Env, i: Instr, ts: seq<Type>)
    ensures Agrees(ValidInstr(env, i, Stack(false, Known(ts))), TypeInstr(env, i, ts))
  {
    if i == Select { SelectAgrees(env, ts); return; }
    hide Apply, Shift, ValidSelect;
    match i
    case Const(v) => ApplyKnown(ts, [], [v.ty]);
    case Binary(ty, _) => ApplyKnown(ts, [ty, ty], [ty]);
    case Compare(ty, _) => ApplyKnown(ts, [ty, ty], [I32]);
    case Eqz(ty) => ApplyKnown(ts, [ty], [I32]);
    case Drop => if ts != [] { assert Known(ts)[..|ts| - 1] == Known(ts[..|ts| - 1]); }
    case Nop =>
    case LocalGet(x) => if x < |env.locals| { ApplyKnown(ts, [], [env.locals[x]]); }
    case LocalSet(x) => if x < |env.locals| { ApplyKnown(ts, [env.locals[x]], []); }
    case LocalTee(x) => if x < |env.locals| { ApplyKnown(ts, [env.locals[x]], [env.locals[x]]); }
    case GlobalGet(x) => if x < |env.globals| { ApplyKnown(ts, [], [env.globals[x]]); }
    case GlobalSet(x) => if x < |env.globals| { ApplyKnown(ts, [env.globals[x]], []); }
    case Load(acc, _, _, _) => ApplyKnown(ts, [I32], [acc.ty]);
    case Store(acc, _, _, _) => ApplyKnown(ts, [I32, acc.ty], []);
    case Call(f) => if f < |env.funcs| { ApplyKnown(ts, env.funcs[f].params, env.funcs[f].results); }
  }

  lemma SelectAgrees(env: Env, ts: seq<Type>)
    ensures Agrees(ValidInstr(env, Select, Stack(false, Known(ts))), TypeInstr(env, Select, ts))
  {
    var n := |ts|;
    if n >= 3 && ValidSelect(Stack(false, Known(ts))).Some? {
      assert Known(ts)[..n - 1][..n - 2][..n - 3] == Known(ts[..n - 3]);
      var t := ts[n - 3];
      assert ts[n - 3..] == [t, t, I32];
      assert Known(ts[..n - 3]) + [Some(t)] == Known(ts[..n - 3] + [t]);
    }
  }

  /** On a stack of known types, code that validates is typed, with the same stack behind it. */
  lemma {:induction false} ListAgrees(env: Env, es: seq<Expr>, fs: seq<Frame>, ex: set<string>, ts: seq<Type>)
    requires ValidList(env, es, fs, ex, Stack(false, Known(ts))).Some?
    ensures TypeList(env, es, fs, ex, ts) != Ill
    ensures TypeList(env, es, fs, ex, ts).Live? ==>
        Agrees(ValidList(env, es, fs, ex, Stack(false, Known(ts))), TypeList(env, es, fs, ex, ts))
    decreases es, 0
  {
    if es != [] {
      ExprAgrees(env, es[0], fs, ex, ts);
      var r := TypeExpr(env, es[0], fs, ex, ts);
      if r.Live? { ListAgrees(env, es[1..], fs, ex, r.ts); }
    }
  }

  lemma {:induction false} ExprAgrees(env: Env, e: Expr, fs: seq<Frame>, ex: set<string>, ts: seq<Type>)
    ensures Agrees(ValidExpr(env, e, fs, ex, Stack(false, Known(ts))), TypeExpr(env, e, fs, ex, ts))
    decreases e, 2
  {
    match e
    case Plain(i) => InstrAgrees(env, i, ts);
    case Block(l, d, body) =>
      BodyAgrees(env, body, fs + [Frame(l, d.sig.results)], ex, d.sig.params, d.sig.results);
      ApplyKnown(ts, d.sig.params, d.sig.results);
    case Loop(l, d, body) =>
      BodyAgrees(env, body, fs + [Frame(l, d.sig.params)], ex, d.sig.params, d.sig.results);
      ApplyKnown(ts, d.sig.params, d.sig.results);
    case If(l, d, thn, els) =>
      PopAllKnown(ts, [I32]);
      PopOne(Stack(false, Known(ts)), I32);
      BodyAgrees(env, thn, fs + [Frame(l, d.sig.results)], ex, d.sig.params, d.sig.results);
      BodyAgrees(env, els, fs + [Frame(l, d.sig.results)], ex, d.sig.params, d.sig.results);
      if ts != [] { ApplyKnown(ts[..|ts| - 1], d.sig.params, d.sig.results); }
    case Try(l, d, body, kind, catches, delegate) =>
      var fs1 := fs + [Frame(l, d.sig.results)];
      BodyAgrees(env, body, fs1, ex, d.sig.params, d.sig.results);
      if kind == CatchTry { CatchesAgree(env, catches, fs1, ex + {l}, d.sig.results); }
      ApplyKnown(ts, d.sig.params, d.sig.results);
    case _ => LeafAgrees(env, e, fs, ex, ts);
  }

  lemma PopOne(st: Stack, t: Type)
    ensures PopAll(st, [t]) == Pop(st, t)
  {
    var st1 := Pop(st, t);
    if st1.Some? { assert [t][..0] == []; }
  }

  lemma LeafAgrees(env: Env, e: Expr, fs: seq<Frame>, ex: set<string>, ts: seq<Type>)
    requires !e.Plain? && !e.Block? && !e.Loop? && !e.If? && !e.Try?
    ensures Agrees(ValidExpr(env, e, fs, ex, Stack(false, Known(ts))), TypeExpr(env, e, fs, ex, ts))
  {
    hide PopAll, EndsWith, Resolve;
    PopAllKnown(ts, [I32]);
    PopOne(Stack(false, Known(ts)), I32);
    forall sig: seq<Type>
      ensures PopAll(Stack(false, Known(ts)), sig).Some? <==> EndsWith(ts, sig)
    {
      PopAllKnown(ts, sig);
    }
    if EndsWith(ts, [I32]) {
      var ts1 := EndsWithOne(ts, I32);
      forall sig: seq<Type>
        ensures PopAll(Stack(false, Known(ts1)), sig).Some? <==> EndsWith(ts1, sig)
        ensures PopAll(Stack(false, Known(ts1)), sig).Some? ==>
            Apply(Stack(false, Known(ts1)), sig, sig) == Some(Stack(false, Known(ts1)))
      {
        PopAllKnown(ts1, sig);
        ApplyKnown(ts1, sig, sig);
        ShiftSame(ts1, sig);
      }
    }
  }

  lemma EndsWithOne(ts: seq<Type>, t: Type) returns (ts1: seq<Type>)
    requires EndsWith(ts, [t])
    ensures ts != [] && ts1 == ts[..|ts| - 1]
  {
    ts1 := ts[..|ts| - 1];
  }

  lemma ShiftSame(ts: seq<Type>, sig: seq<Type>)
    ensures EndsWith(ts, sig) ==> Shift(ts, sig, sig) == Live(ts)
  {
    if EndsWith(ts, sig) { assert ts[..|ts| - |sig|] + sig == ts; }
  }

  lemma {:induction false} BodyAgrees(env: Env, es: seq<Expr>, fs: seq<Frame>, ex: set<string>, params: seq<Type>,
      results: seq<Type>)
    ensures ValidBody(env, es, fs, ex, params, results) ==> TypeBody(env, es, fs, ex, params, results)
    decreases es, 1
  {
    if ValidBody(env, es, fs, ex, params, results) {
      ListAgrees(env, es, fs, ex, params);
      var r := TypeList(env, es, fs, ex, params);
      if r.Live? {
        PopAllKnown(r.ts, results);
        var left := r.ts[..|r.ts| - |results|];
        assert |Known(left)| == |left|;
        assert r.ts[|r.ts| - |results|..] == r.ts;
      }
    }
  }

  lemma {:induction false} CatchesAgree(env: Env, cs: seq<Catch>, fs: seq<Frame>, ex: set<string>, results: seq<Type>)
    ensures ValidCatches(env, cs, fs, ex, results) ==> TypeCatches(env, cs, fs, ex, results)
    decreases cs, 0
  {
    if cs != [] {
      match cs[0].tag {
        case None => BodyAgrees(env, cs[0].exprs, fs, ex, [], results);
        case Some(t) => if t < |env.tags| { BodyAgrees(env, cs[0].exprs, fs, ex, env.tags[t], results); }
      }
      CatchesAgree(env, cs[1..], fs, ex, results);
    }
  }

  // ----- labels -----

  /** In code that validates every branch, reachable or not, names a label in scope. */
  lemma {:induction false} ValidScoped(env: Env, es: seq<Expr>, fs: seq<Frame>, ex: set<string>, st: Stack)
    requires ValidList(env, es, fs, ex, st).Some?
    ensures Scoped(es, fs)
    decreases es, 0
  {
    if es != [] {
      ExprScoped(env, es[0], fs, ex, st);
      ValidScoped(env, es[1..], fs, ex, ValidExpr(env, es[0], fs, ex, st).value);
    }
  }

  lemma {:induction false} ExprScoped(env: Env, e: Expr, fs: seq<Frame>, ex: set<string>, st: Stack)
    requires ValidExpr(env, e, fs, ex, st).Some?
    ensures ScopedExpr(e, fs)
    decreases e, 1
  {
    hide PopAll, Pop, Apply, ValidInstr;
    match e
    case Block(l, d, body) =>
      ValidScoped(env, body, fs + [Frame(l, d.sig.results)], ex, Stack(false, Known(d.sig.params)));
    case Loop(l, d, body) =>
      ValidScoped(env, body, fs + [Frame(l, d.sig.params)], ex, Stack(false, Known(d.sig.params)));
    case If(l, d, thn, els) =>
      ValidScoped(env, thn, fs + [Frame(l, d.sig.results)], ex, Stack(false, Known(d.sig.params)));
      ValidScoped(env, els, fs + [Frame(l, d.sig.results)], ex, Stack(false, Known(d.sig.params)));
    case Try(l, d, body, kind, catches, delegate) =>
      ValidScoped(env, body, fs + [Frame(l, d.sig.results)], ex, Stack(false, Known(d.sig.params)));
      if kind == CatchTry { CatchesScoped(env, catches, fs + [Frame(l, d.sig.results)], ex + {l}, d.sig.results); }
    case _ =>
  }

  lemma {:induction false} CatchesScoped(env: Env, cs: seq<Catch>, fs: seq<Frame>, ex: set<string>, results: seq<Type>)
    requires ValidCatches(env, cs, fs, ex, results)
    ensures ScopedCatches(cs, fs)
    decreases cs, 0
  {
    if cs != [] {
      var params := if cs[0].tag == None then [] else env.tags[cs[0].tag.value];
      ValidScoped(env, cs[0].exprs, fs, ex, Stack(false, Known(params)));
      CatchesScoped(env, cs[1..], fs, ex, results);
    }
  }

  /** A validated body is typed, and its branches are in scope. */
  lemma ValidatedIs(env: Env, body: seq<Expr>)
    requires Validated(env, body)
    ensures TypeBody(env, body, [Frame("", env.results)], {}, [], env.results) && Scoped(body, [Frame("", env.results)])
  {
    BodyAgrees(env, body, [Frame("", env.results)], {}, [], env.results);
    ValidScoped(env, body, [Frame("", env.results)], {}, Stack(false, Known([])));
  }
}

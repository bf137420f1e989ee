/** The types of function bodies along the code that can be reached, after section 3.3 of
    the WebAssembly Core Specification. What follows an unconditional transfer of control is
    not looked at here: Validation checks that too, on a polymorphic stack. */
module Typing {
  import opened Ir
  import opened Wasm

  // ----- instructions -----

  /** A label in scope: its name and the types a branch to it carries. */
  datatype Frame = Frame(name: string, sig: seq<Type>)

  /** The stack after typed code, if its end can be reached. */
  datatype Typing = Ill | Dead | Live(ts: seq<Type>)

  predicate EndsWith(ts: seq<Type>, tail: seq<Type>) {
    |tail| <= |ts| && ts[|ts| - |tail|..] == tail
  }

  /** Replace `pops` on top of the stack by `pushes`. */
  function Shift(ts: seq<Type>, pops: seq<Type>, pushes: seq<Type>): Typing {
    if EndsWith(ts, pops) then Live(ts[..|ts| - |pops|] + pushes) else Ill
  }

  /** The operators of Ir are those on integers. */
  predicate IsInt(ty: Type) { ty == I32 || ty == I64 }

  function SigOf(env: Env, f: nat): FuncType { if f < |env.funcs| then env.funcs[f] else FuncType([], []) }

  function TagOf(env: Env, t: nat): seq<Type> { if t < |env.tags| then env.tags[t] else [] }

  function TypeInstr(env: Env, i: Instr, ts: seq<Type>): Typing {
    match i
    case Const(v) => Shift(ts, [], [v.ty])
    case Binary(ty, _) => if IsInt(ty) then Shift(ts, [ty, ty], [ty]) else Ill
    case Compare(ty, _) => if IsInt(ty) then Shift(ts, [ty, ty], [I32]) else Ill
    case Eqz(ty) => if IsInt(ty) then Shift(ts, [ty], [I32]) else Ill
    case Drop => if |ts| >= 1 then Live(ts[..|ts| - 1]) else Ill
    case Select =>
      if |ts| >= 3 then var t := ts[|ts| - 3]; Shift(ts, [t, t, I32], [t]) else Ill
    case Nop => Live(ts)
    case LocalGet(x) => if x < |env.locals| then Shift(ts, [], [env.locals[x]]) else Ill
    case LocalSet(x) => if x < |env.locals| then Shift(ts, [env.locals[x]], []) else Ill
    case LocalTee(x) => if x < |env.locals| then Shift(ts, [env.locals[x]], [env.locals[x]]) else Ill
    case GlobalGet(x) => if x < |env.globals| then Shift(ts, [], [env.globals[x]]) else Ill
    case GlobalSet(x) => if x < |env.globals| then Shift(ts, [env.globals[x]], []) else Ill
    case Load(acc, _, _, _) => Shift(ts, [I32], [acc.ty])
    case Store(acc, _, _, _) => Shift(ts, [I32, acc.ty], [])
    case Call(f) => if f < |env.funcs| then Shift(ts, env.funcs[f].params, env.funcs[f].results) else Ill
  }

  /** The position of the innermost label named `name`; positions count from the function label. */
  function FindFrame(fs: seq<Frame>, name: string): Option<nat> {
    if fs == [] then None
    else if fs[|fs| - 1].name == name then Some(|fs| - 1)
    else FindFrame(fs[..|fs| - 1], name)
  }

  /** The position a branch target denotes: a name in scope, or the function label by its depth. */
  function Resolve(fs: seq<Frame>, v: Var): Option<nat> {
    match v
    case Name(n) => if n == "" then None else FindFrame(fs, n)
    case Index(d) => if d + 1 == |fs| then Some(0) else None
  }

  predicate BranchOk(fs: seq<Frame>, v: Var, ts: seq<Type>) {
    var i := Resolve(fs, v);
    i.Some? && i.value < |fs| && EndsWith(ts, fs[i.value].sig)
  }

  /** Transfers of control after which the rest of the list cannot be reached. */
  predicate Leaves(e: Expr) {
    Ends(e) || e.Throw? || e.Rethrow?
  }

  /** The end of the list cannot be reached. */
  predicate LeavesList(es: seq<Expr>) {
    es != [] && (Leaves(es[0]) || LeavesList(es[1..]))
  }

  /** Those after which the rest of the list is not written either. */
  predicate Ends(e: Expr) {
    e.Br? || e.BrTable? || e.Return? || e.Unreachable?
  }

  /** `ex` holds the names of the enclosing tries whose clauses this code is in. */
  function TypeList(env: Env, es: seq<Expr>, fs: seq<Frame>, ex: set<string>, ts: seq<Type>): Typing
    decreases es, 0
  {
    if es == [] then Live(ts)
    else
      match TypeExpr(env, es[0], fs, ex, ts)
      case Live(ts1) => TypeList(env, es[1..], fs, ex, ts1)
      case r => r
  }

  predicate TypeBody(env: Env, es: seq<Expr>, fs: seq<Frame>, ex: set<string>, ts: seq<Type>, results: seq<Type>)
    decreases es, 1
  {
    var r := TypeList(env, es, fs, ex, ts);
    r == Dead || r == Live(results)
  }

  function TypeExpr(env: Env, e: Expr, fs: seq<Frame>, ex: set<string>, ts: seq<Type>): Typing
    decreases e, 2
  {
    match e
    case Plain(i) => TypeInstr(env, i, ts)
    case Br(v) => if BranchOk(fs, v, ts) then Dead else Ill
    case BrIf(v) =>
      if EndsWith(ts, [I32]) && BranchOk(fs, v, ts[..|ts| - 1]) then Live(ts[..|ts| - 1]) else Ill
    case BrTable(vs, d) =>
      if EndsWith(ts, [I32]) && BranchOk(fs, d, ts[..|ts| - 1])
         && forall v | v in vs :: BranchOk(fs, v, ts[..|ts| - 1])
      then Dead else Ill
    case Return => if |fs| > 0 && EndsWith(ts, fs[0].sig) then Dead else Ill
    case Unreachable => Dead
    case Throw(t) => if t < |env.tags| && EndsWith(ts, env.tags[t]) then Dead else Ill
    case Rethrow(v) => if v.Name? && v.name in ex then Dead else Ill
    case Block(l, d, body) =>
      if TypeBody(env, body, fs + [Frame(l, d.sig.results)], ex, d.sig.params, d.sig.results)
      then Shift(ts, d.sig.params, d.sig.results) else Ill
    case Loop(l, d, body) =>
      if TypeBody(env, body, fs + [Frame(l, d.sig.params)], ex, d.sig.params, d.sig.results)
      then Shift(ts, d.sig.params, d.sig.results) else Ill
    case If(l, d, thn, els) =>
      if EndsWith(ts, [I32])
         && TypeBody(env, thn, fs + [Frame(l, d.sig.results)], ex, d.sig.params, d.sig.results)
         && TypeBody(env, els, fs + [Frame(l, d.sig.results)], ex, d.sig.params, d.sig.results)
      then Shift(ts[..|ts| - 1], d.sig.params, d.sig.results) else Ill
    case Try(l, d, body, kind, catches, delegate) =>
      var fs1 := fs + [Frame(l, d.sig.results)];
      if TypeBody(env, body, fs1, ex, d.sig.params, d.sig.results)
         && (kind == CatchTry ==> catches != [] && TypeCatches(env, catches, fs1, ex + {l}, d.sig.results))
         && (kind == DelegateTry ==> Resolve(fs, delegate).Some?)
      then Shift(ts, d.sig.params, d.sig.results) else Ill
  }

  predicate TypeCatches(env: Env, cs: seq<Catch>, fs: seq<Frame>, ex: set<string>, results: seq<Type>)
    decreases cs, 0
  {
    cs == [] ||
    ((match cs[0].tag
      case None => TypeBody(env, cs[0].exprs, fs, ex, [], results)
      case Some(t) => t < |env.tags| && TypeBody(env, cs[0].exprs, fs, ex, env.tags[t], results))
     && TypeCatches(env, cs[1..], fs, ex, results))
  }
}

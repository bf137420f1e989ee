/** The type stack that the C writer keeps while it writes a body, read off the expressions
    alone. The writer goes on behind a throw with the stack the throw left in place, so on
    code that validation accepts there the stack can run out of operands, and can reach
    below the block it is in. */
module StackTypes {
  import opened Ir
  import opened Wasm
  import opened Typing

  function TypeAt(ts: seq<Type>, i: nat): Type { if i < |ts| then ts[i] else I32 }

  /** What an instruction does to the type stack: the operands it names, how many types it
      drops, and the types it pushes. A shift keeps the type of the operand it assigns to. */
  function Effect(env: Env, i: Instr, ts: seq<Type>): (nat, nat, seq<Type>) {
    match i
    case Const(v) => (0, 0, [v.ty])
    case Binary(ty, op) => if op in {Shl, ShrU, ShrS} then (2, 1, []) else (2, 2, [ty])
    case Compare(_, _) => (2, 2, [I32])
    case Eqz(_) => (1, 1, [I32])
    case Drop => (1, 1, [])
    case Select => (3, 3, [if |ts| >= 2 then ts[|ts| - 2] else I32])
    case Nop => (0, 0, [])
    case LocalGet(x) => (0, 0, [TypeAt(env.locals, x)])
    case LocalSet(_) => (1, 1, [])
    case LocalTee(_) => (1, 0, [])
    case GlobalGet(x) => (0, 0, [TypeAt(env.globals, x)])
    case GlobalSet(_) => (1, 1, [])
    case Load(acc, _, _, _) => (1, 1, [acc.ty])
    case Store(_, _, _, _) => (2, 2, [])
    case Call(f) => (|SigOf(env, f).params|, |SigOf(env, f).params|, SigOf(env, f).results)
  }

  /** The stack after an instruction whatever it finds there. */
  function After(env: Env, i: Instr, ts: seq<Type>): seq<Type> {
    var (_, drop, push) := Effect(env, i, ts);
    DropN(ts, drop) + push
  }

  // ----- labels in scope -----

  /** A label in scope, and the height at which its block began. */
  datatype Mark = Mark(frame: Frame, base: nat)

  function FramesOf(ms: seq<Mark>): (fs: seq<Frame>)
    ensures |fs| == |ms| && forall i | 0 <= i < |ms| :: fs[i] == ms[i].frame
  {
    seq(|ms|, i requires 0 <= i < |ms| => ms[i].frame)
  }

  /** A branch from a stack of `size` types finds the operands of its label above the height
      where the label's block began. */
  predicate BranchFits(ms: seq<Mark>, v: Var, size: nat) {
    var i := Resolve(FramesOf(ms), v);
    && i.Some? && i.value < |ms|
    && var m := ms[i.value]; m.frame.sig == [] || m.base + |m.frame.sig| <= size
  }

  // ----- the analysis -----

  /** Cut `ts` back to the height of `base`; with `keep`, the types up to there must be those
      of `base`. */
  function Reset(keep: bool, base: seq<Type>, ts: seq<Type>): Option<seq<Type>> {
    if |base| <= |ts| && (keep ==> base <= ts) then Some(ts[..|base|]) else None
  }

  /** The writer's type stack after `es`; None if it runs out of operands. With `keep`, also
      None if a block that can be reached changes the types that lie below it. */
  function StackList(env: Env, keep: bool, es: seq<Expr>, ms: seq<Mark>, ts: seq<Type>): Option<seq<Type>>
    decreases es, 0
  {
    if es == [] then Some(ts)
    else
      var ts1 :- StackExpr(env, keep, es[0], ms, ts);
      if Ends(es[0]) then Some(ts1) else StackList(env, keep && !Leaves(es[0]), es[1..], ms, ts1)
  }

  function StackExpr(env: Env, keep: bool, e: Expr, ms: seq<Mark>, ts: seq<Type>): Option<seq<Type>>
    decreases e, 1
  {
    match e
    case Plain(i) => if Effect(env, i, ts).0 <= |ts| then Some(After(env, i, ts)) else None
    case Br(v) => if BranchFits(ms, v, |ts|) then Some(ts) else None
    case BrIf(v) => if |ts| >= 1 && BranchFits(ms, v, |ts| - 1) then Some(DropN(ts, 1)) else None
    case BrTable(vs, d) =>
      if |ts| >= 1 && BranchFits(ms, d, |ts| - 1) && forall v | v in vs :: BranchFits(ms, v, |ts| - 1)
      then Some(DropN(ts, 1)) else None
    case Return => if ms != [] && BranchFits(ms, Index(|ms| - 1), |ts|) then Some(ts) else None
    case Unreachable => Some(ts)
    case Throw(t) => if |TagOf(env, t)| <= |ts| then Some(ts) else None
    case Rethrow(v) => if v.Name? then Some(ts) else None
    case Block(l, d, body) => StackBlock(env, keep, Frame(l, d.sig.results), body, d.sig, ms, ts)
    case Loop(l, d, body) =>
      if body == [] then Some(ts) else StackBlock(env, keep, Frame(l, d.sig.params), body, d.sig, ms, ts)
    case If(l, d, thn, els) =>
      if |ts| < 1 + |d.sig.params| then None
      else
        var base := DropN(DropN(ts, 1), |d.sig.params|);
        var ms1 := ms + [Mark(Frame(l, d.sig.results), |base|)];
        var ts1 :- StackList(env, keep, thn, ms1, base + d.sig.params);
        var base1 :- Reset(keep, base, ts1);
        if els == [] then Some(base1 + d.sig.results)
        else
          var ts2 :- StackList(env, keep, els, ms1, base1 + d.sig.params);
          var base2 :- Reset(keep, base, ts2);
          Some(base2 + d.sig.results)
    case Try(l, d, body, kind, catches, delegate) =>
      if kind == PlainTry then StackBlock(env, keep, Frame(l, d.sig.results), body, d.sig, ms, ts)
      else if |ts| < |d.sig.params| then None
      else
        var base := DropN(ts, |d.sig.params|);
        var ms1 := ms + [Mark(Frame(l, d.sig.results), |base|)];
        var ts1 :- StackList(env, keep, body, ms1, base + d.sig.params);
        var base1 :- Reset(keep, base, ts1);
        if kind == DelegateTry then
          if Resolve(FramesOf(ms), delegate).Some? then Some(base1 + d.sig.results) else None
        else if catches == [] then None
        else
          var ts2 :- StackCatches(env, keep, catches, ms1, base, base1);
          var base2 :- Reset(keep, base, ts2);
          Some(base2 + d.sig.results)
  }

  /** A block with the label `f`, whose body starts above what `sig` leaves of `ts`. */
  function StackBlock(env: Env, keep: bool, f: Frame, body: seq<Expr>, sig: FuncType, ms: seq<Mark>,
      ts: seq<Type>): Option<seq<Type>>
    decreases body, 1
  {
    if |ts| < |sig.params| then None
    else
      var base := DropN(ts, |sig.params|);
      var ts1 :- StackList(env, keep, body, ms + [Mark(f, |base|)], base + sig.params);
      var base1 :- Reset(keep, base, ts1);
      Some(base1 + sig.results)
  }

  /** The clauses of a try that began above `base`, up to its catch_all. */
  function StackCatches(env: Env, keep: bool, cs: seq<Catch>, ms: seq<Mark>, base: seq<Type>,
      ts: seq<Type>): Option<seq<Type>>
    decreases cs, 0
  {
    if cs == [] then Some(ts)
    else
      var base1 :- Reset(keep, base, ts);
      match cs[0].tag
      case None => StackList(env, keep, cs[0].exprs, ms, base1)
      case Some(t) =>
        var ts1 :- StackList(env, keep, cs[0].exprs, ms, base1 + TagOf(env, t));
        StackCatches(env, keep, cs[1..], ms, base, ts1)
  }

  // ----- keeping the types below a block only asks for more -----

  lemma {:induction false} KeepList(env: Env, keep: bool, es: seq<Expr>, ms: seq<Mark>, ts: seq<Type>)
    requires StackList(env, keep, es, ms, ts).Some?
    ensures StackList(env, false, es, ms, ts) == StackList(env, keep, es, ms, ts)
    decreases es, 0
  {
    if es != [] {
      KeepExpr(env, keep, es[0], ms, ts);
      if !Ends(es[0]) { KeepList(env, keep && !Leaves(es[0]), es[1..], ms, StackExpr(env, keep, es[0], ms, ts).value); }
    }
  }

  lemma {:induction false} KeepExpr(env: Env, keep: bool, e: Expr, ms: seq<Mark>, ts: seq<Type>)
    requires StackExpr(env, keep, e, ms, ts).Some?
    ensures StackExpr(env, false, e, ms, ts) == StackExpr(env, keep, e, ms, ts)
    decreases e, 1
  {
    hide BranchFits, Effect, After;
    match e
    case Block(l, d, body) => KeepBlock(env, keep, Frame(l, d.sig.results), body, d.sig, ms, ts);
    case Loop(l, d, body) => if body != [] { KeepBlock(env, keep, Frame(l, d.sig.params), body, d.sig, ms, ts); }
    case If(l, d, thn, els) =>
      var base := DropN(DropN(ts, 1), |d.sig.params|);
      var ms1 := ms + [Mark(Frame(l, d.sig.results), |base|)];
      KeepList(env, keep, thn, ms1, base + d.sig.params);
      var base1 := Reset(keep, base, StackList(env, keep, thn, ms1, base + d.sig.params).value).value;
      if els != [] { KeepList(env, keep, els, ms1, base1 + d.sig.params); }
    case Try(l, d, body, kind, catches, _) =>
      if kind == PlainTry {
        KeepBlock(env, keep, Frame(l, d.sig.results), body, d.sig, ms, ts);
      } else {
        var base := DropN(ts, |d.sig.params|);
        var ms1 := ms + [Mark(Frame(l, d.sig.results), |base|)];
        KeepList(env, keep, body, ms1, base + d.sig.params);
        var base1 := Reset(keep, base, StackList(env, keep, body, ms1, base + d.sig.params).value).value;
        if kind == CatchTry { KeepCatches(env, keep, catches, ms1, base, base1); }
      }
    case _ =>
  }

  lemma {:induction false} KeepBlock(env: Env, keep: bool, f: Frame, body: seq<Expr>, sig: FuncType, ms: seq<Mark>,
      ts: seq<Type>)
    requires StackBlock(env, keep, f, body, sig, ms, ts).Some?
    ensures StackBlock(env, false, f, body, sig, ms, ts) == StackBlock(env, keep, f, body, sig, ms, ts)
    decreases body, 1
  {
    var base := DropN(ts, |sig.params|);
    KeepList(env, keep, body, ms + [Mark(f, |base|)], base + sig.params);
  }

  lemma {:induction false} KeepCatches(env: Env, keep: bool, cs: seq<Catch>, ms: seq<Mark>, base: seq<Type>,
      ts: seq<Type>)
    requires StackCatches(env, keep, cs, ms, base, ts).Some?
    ensures StackCatches(env, false, cs, ms, base, ts) == StackCatches(env, keep, cs, ms, base, ts)
    decreases cs, 0
  {
    if cs != [] {
      var base1 := Reset(keep, base, ts).value;
      match cs[0].tag
      case None => KeepList(env, keep, cs[0].exprs, ms, base1);
      case Some(t) =>
        KeepList(env, keep, cs[0].exprs, ms, base1 + TagOf(env, t));
        KeepCatches(env, keep, cs[1..], ms, base, StackList(env, keep, cs[0].exprs, ms, base1 + TagOf(env, t)).value);
    }
  }

  // ----- labels -----

  /** Every branch, written or not, names a label in scope. */
  predicate Scoped(es: seq<Expr>, fs: seq<Frame>)
    decreases es, 0
  {
    es == [] || (ScopedExpr(es[0], fs) && Scoped(es[1..], fs))
  }

  predicate ScopedExpr(e: Expr, fs: seq<Frame>)
    decreases e, 1
  {
    match e
    case Br(v) => Resolve(fs, v).Some?
    case BrIf(v) => Resolve(fs, v).Some?
    case BrTable(vs, d) => Resolve(fs, d).Some? && forall v | v in vs :: Resolve(fs, v).Some?
    case Rethrow(v) => v.Name?
    case Block(l, d, body) => Scoped(body, fs + [Frame(l, d.sig.results)])
    case Loop(l, d, body) => Scoped(body, fs + [Frame(l, d.sig.params)])
    case If(l, d, thn, els) =>
      Scoped(thn, fs + [Frame(l, d.sig.results)]) && Scoped(els, fs + [Frame(l, d.sig.results)])
    case Try(l, d, body, kind, catches, delegate) =>
      && Scoped(body, fs + [Frame(l, d.sig.results)])
      && (kind == CatchTry ==> catches != [] && ScopedCatches(catches, fs + [Frame(l, d.sig.results)]))
      && (kind == DelegateTry ==> Resolve(fs, delegate).Some?)
    case _ => true
  }

  predicate ScopedCatches(cs: seq<Catch>, fs: seq<Frame>)
    decreases cs, 0
  {
    cs == [] || (Scoped(cs[0].exprs, fs) && ScopedCatches(cs[1..], fs))
  }
}

/** Branches, throws and tries' ends: the one-step cases of the correctness proof. */
module LoweringLeaf {
  import opened Ir
  import opened Wasm
  import opened Typing
  import opened CLang
  import opened Lowering
  import opened LoweringShape
  import opened LoweringRel
  import opened LoweringInstr
  import opened LoweringBranch
  import opened LoweringScope

  /** The two machines are at corresponding points of a typed list. */
  ghost predicate Ready(ctx: Ctx, used: set<string>, ex: set<string>, tb: seq<Type>, ts: seq<Type>, w: Writer,
      below: seq<Value>, caught: Caught, m: Machine, s: Store) {
    && w.ts == tb + ts && |tb| == |below| && !w.dead
    && Rel(ctx, w, below, caught, m, s)
    && StacksOk(w, |below|, used)
    && ex <= caught.Keys <= used && CaughtOk(ctx.cfg.env, caught)
    && HostOk(ctx.cfg.env, ctx.host)
  }

  predicate ExnOk(env: Env, x: Exn) {
    x.tag < |env.tags| && |x.args| == |env.tags[x.tag]|
  }

  /** Exceptions that were caught have a declared tag and its arguments. */
  predicate CaughtOk(env: Env, caught: Caught) {
    forall l | l in caught :: ExnOk(env, caught[l])
  }

  /** `code`, after which the writer's state is `w1`, stands in the program before `k`. */
  ghost predicate Placed(ctx: Ctx, code: Code, w1: Writer, k: Code) {
    Located(ctx.p, code, k) && JumpsOk(ctx, w1) && w1.sound
  }

  /** Jump targets depend on the label and try stacks alone. */
  lemma JumpsSame(ctx: Ctx, w: Writer, w1: Writer)
    requires JumpsOk(ctx, w1) && w1.labels == w.labels && w1.tries == w.tries
    ensures JumpsOk(ctx, w)
  {}

  lemma SimBr(ctx: Ctx, v: Var, used: set<string>, ex: set<string>, tb: seq<Type>, ts: seq<Type>, w: Writer,
      below: seq<Value>, caught: Caught, m: Machine, k: Code, s: Store, fuel: nat)
    returns (n: nat, c: Conf)
    requires BranchOk(Frames(w.labels), v, ts) && Ready(ctx, used, ex, tb, ts, w, below, caught, m, s)
    requires JumpsOk(ctx, LowerGoto(v, w).1)
    ensures c == Steps(ctx.host, ctx.p, Running(Append(LowerGoto(v, w).0, k), s), n)
    ensures Arrived(ctx, w, LowerGoto(v, w).1, below, caught, Branch(TargetOf(v), m), k, n, fuel, c)
  {
    n, c := SimGoto(ctx, v, tb, ts, w, used, below, caught, m, k, s);
  }

  /** The condition or index on top of the stack, and the state without it. */
  lemma PopOperand(ctx: Ctx, used: set<string>, ex: set<string>, tb: seq<Type>, ts: seq<Type>, w: Writer,
      below: seq<Value>, caught: Caught, m: Machine, s: Store)
    requires EndsWith(ts, [I32]) && Ready(ctx, used, ex, tb, ts, w, below, caught, m, s)
    ensures |ts| >= 1 && EvalX(s, VarX(StackVar(w.ts, 0))) == Some(Peek(m.stack, 0))
    ensures var w0 := w.(ts := DropN(w.ts, 1));
            Ready(ctx, used, ex, tb, ts[..|ts| - 1], w0, below, caught, m.(stack := DropN(m.stack, 1)), s)
            && Grown(w, w0) && tb <= w.ts && tb <= w0.ts
  {
    Operand(ctx, w, below, caught, m, s, tb, ts, [I32], 0);
    SimDrop(ctx, w, below, caught, m, s, 1);
    DropParams(tb, ts, [I32]);
    StacksGrown(w, w.(ts := DropN(w.ts, 1)), |below|, used);
  }

  lemma SimBrIf(ctx: Ctx, v: Var, used: set<string>, ex: set<string>, tb: seq<Type>, ts: seq<Type>, w: Writer,
      below: seq<Value>, caught: Caught, m: Machine, k: Code, s: Store, fuel: nat)
    returns (n: nat, c: Conf)
    requires EndsWith(ts, [I32]) && BranchOk(Frames(w.labels), v, ts[..|ts| - 1])
    requires Ready(ctx, used, ex, tb, ts, w, below, caught, m, s)
    requires JumpsOk(ctx, LowerExpr(ctx.cfg, BrIf(v), w).1)
    ensures var (code, w1) := LowerExpr(ctx.cfg, BrIf(v), w);
            c == Steps(ctx.host, ctx.p, Running(Append(code, k), s), n)
            && Arrived(ctx, w, w1, below, caught, Eval(ctx.cfg.env, ctx.host, BrIf(v), caught, m, fuel), k, n, fuel, c)
  {
    hide LowerGoto, LowerExpr, Eval, Append, Ready, BranchOk, EndsWith, JumpsOk, Arrived, Steps;
    BrIfUnfold(ctx, v, w, caught, m, fuel);
    n, c := SimIfGoto(ctx, v, used, ex, tb, ts, w, below, caught, m, k, s, fuel);
  }

  lemma SimIfGoto(ctx: Ctx, v: Var, used: set<string>, ex: set<string>, tb: seq<Type>, ts: seq<Type>, w: Writer,
      below: seq<Value>, caught: Caught, m: Machine, k: Code, s: Store, fuel: nat)
    returns (n: nat, c: Conf)
    requires EndsWith(ts, [I32]) && BranchOk(Frames(w.labels), v, ts[..|ts| - 1])
    requires Ready(ctx, used, ex, tb, ts, w, below, caught, m, s)
    requires JumpsOk(ctx, LowerGoto(v, w.(ts := DropN(w.ts, 1))).1)
    ensures var (code, w1) := LowerGoto(v, w.(ts := DropN(w.ts, 1)));
            var m0 := m.(stack := DropN(m.stack, 1));
            c == Steps(ctx.host, ctx.p, Running(Append(One(IfElse(VarX(StackVar(w.ts, 0)), code, Nil)), k), s), n)
            && Arrived(ctx, w, w1, below, caught, if Peek(m.stack, 0).bits != 0 then Branch(TargetOf(v), m0)
                else Next(m0), k, n, fuel, c)
  {
    hide LowerGoto, BranchOk, JumpsOk, EndsWith, StackVar, Grown, Append, Rel, StacksOk, HostOk, CaughtOk, EvalX,
        Steps, BranchRel;
    var w0 := w.(ts := DropN(w.ts, 1));
    var (code, w1) := LowerGoto(v, w0);
    var x := VarX(StackVar(w.ts, 0));
    var m0 := m.(stack := DropN(m.stack, 1));
    PopOperand(ctx, used, ex, tb, ts, w, below, caught, m, s);
    GrownGoto(v, w0);
    RelGrown(ctx, w0, w1, below, caught, m0, s);
    IfStep(ctx, x, code, Nil, k, s, Peek(m.stack, 0));
    var c0 := Running(Append(One(IfElse(x, code, Nil)), k), s);
    if Peek(m.stack, 0).bits != 0 {
      var n1;
      n1, c := SimBr(ctx, v, used, ex, tb, ts[..|ts| - 1], w0, below, caught, m0, k, s, fuel);
      n := 1 + n1;
      Chain(ctx, c0, 1, Running(Append(code, k), s), n1, c);
      ArrivedEarlier(ctx, tb, w, w0, w1, used, below, caught, Branch(TargetOf(v), m0), k, n1, n, fuel, c);
    } else {
      n, c := 1, Running(k, s);
      AppendNilLeft(k);
    }
  }

  lemma AppendNilLeft(k: Code)
    ensures Append(Nil, k) == k
  {}

  lemma BrIfUnfold(ctx: Ctx, v: Var, w: Writer, caught: Caught, m: Machine, fuel: nat)
    ensures var (code, w1) := LowerGoto(v, w.(ts := DropN(w.ts, 1)));
            LowerExpr(ctx.cfg, BrIf(v), w) == (One(IfElse(VarX(StackVar(w.ts, 0)), code, Nil)), w1)
    ensures var m0 := m.(stack := DropN(m.stack, 1));
            Eval(ctx.cfg.env, ctx.host, BrIf(v), caught, m, fuel) ==
              if Peek(m.stack, 0).bits != 0 then Branch(TargetOf(v), m0) else Next(m0)
  {
    hide LowerGoto;
  }

  /** A conditional runs one of its arms and goes on. */
  lemma IfStep(ctx: Ctx, x: CExpr, a: Code, b: Code, k: Code, s: Store, v: Value)
    requires EvalX(s, x) == Some(v)
    ensures Steps(ctx.host, ctx.p, Running(Append(One(IfElse(x, a, b)), k), s), 1)
        == Running(Append(if v.bits != 0 then a else b, k), s)
  {
    AppendOne(IfElse(x, a, b), k);
    OneStep(ctx, Running(Cons(IfElse(x, a, b), k), s), Running(Append(if v.bits != 0 then a else b, k), s));
  }

  lemma SimBrTable(ctx: Ctx, vs: seq<Var>, d: Var, used: set<string>, ex: set<string>, tb: seq<Type>, ts: seq<Type>,
      w: Writer, below: seq<Value>, caught: Caught, m: Machine, k: Code, s: Store, fuel: nat)
    returns (n: nat, c: Conf)
    requires EndsWith(ts, [I32]) && BranchOk(Frames(w.labels), d, ts[..|ts| - 1])
    requires forall v | v in vs :: BranchOk(Frames(w.labels), v, ts[..|ts| - 1])
    requires Ready(ctx, used, ex, tb, ts, w, below, caught, m, s)
    requires JumpsOk(ctx, LowerExpr(ctx.cfg, BrTable(vs, d), w).1)
    ensures var (code, w1) := LowerExpr(ctx.cfg, BrTable(vs, d), w);
            c == Steps(ctx.host, ctx.p, Running(Append(code, k), s), n)
            && Arrived(ctx, w, w1, below, caught, Eval(ctx.cfg.env, ctx.host, BrTable(vs, d), caught, m, fuel), k, n,
                fuel, c)
  {
    hide LowerCases, LowerExpr, Eval, Append, Ready, BranchOk, EndsWith, JumpsOk, Arrived, Steps;
    BrTableUnfold(ctx, vs, d, w, caught, m, fuel);
    n, c := SimSwitch(ctx, vs, d, used, ex, tb, ts, w, below, caught, m, k, s, fuel);
  }

  lemma SimSwitch(ctx: Ctx, vs: seq<Var>, d: Var, used: set<string>, ex: set<string>, tb: seq<Type>, ts: seq<Type>,
      w: Writer, below: seq<Value>, caught: Caught, m: Machine, k: Code, s: Store, fuel: nat)
    returns (n: nat, c: Conf)
    requires EndsWith(ts, [I32]) && BranchOk(Frames(w.labels), d, ts[..|ts| - 1])
    requires forall v | v in vs :: BranchOk(Frames(w.labels), v, ts[..|ts| - 1])
    requires Ready(ctx, used, ex, tb, ts, w, below, caught, m, s)
    requires JumpsOk(ctx, LowerCases(vs, d, w.(ts := DropN(w.ts, 1))).1)
    ensures var idx := Peek(m.stack, 0).bits;
            var (cs, w1) := LowerCases(vs, d, w.(ts := DropN(w.ts, 1)));
            c == Steps(ctx.host, ctx.p, Running(Append(One(Switch(VarX(StackVar(w.ts, 0)), cs)), k), s), n)
            && Arrived(ctx, w, w1, below, caught, Branch(TargetOf(if idx < |vs| then vs[idx] else d),
                m.(stack := DropN(m.stack, 1))), k, n, fuel, c)
  {
    hide LowerCases, BranchOk, JumpsOk, EndsWith, StackVar, Grown, Append, SelectCase, StacksOk, Rel, HostOk,
        CaughtOk, EvalX, Steps, BranchRel;
    var w0 := w.(ts := DropN(w.ts, 1));
    var (cs, w1) := LowerCases(vs, d, w0);
    var x := VarX(StackVar(w.ts, 0));
    var idx := Peek(m.stack, 0).bits;
    var m0 := m.(stack := DropN(m.stack, 1));
    var to := TargetOf(if idx < |vs| then vs[idx] else d);
    PopOperand(ctx, used, ex, tb, ts, w, below, caught, m, s);
    SwitchStep(ctx, x, cs, k, s, Peek(m.stack, 0));
    var n1;
    n1, c := SimCases(ctx, vs, d, idx, tb, ts[..|ts| - 1], w0, used, below, caught, m0, k, s);
    n := 1 + n1;
    Chain(ctx, Running(Append(One(Switch(x, cs)), k), s), 1, Running(Append(SelectCase(cs, idx), k), s), n1, c);
    BranchEarlier(ctx, tb, w, w0, used, to, below, caught, m0, c);
  }

  lemma BrTableUnfold(ctx: Ctx, vs: seq<Var>, d: Var, w: Writer, caught: Caught, m: Machine, fuel: nat)
    ensures var (cs, w1) := LowerCases(vs, d, w.(ts := DropN(w.ts, 1)));
            LowerExpr(ctx.cfg, BrTable(vs, d), w) == (One(Switch(VarX(StackVar(w.ts, 0)), cs)), w1)
    ensures var idx := Peek(m.stack, 0).bits;
            Eval(ctx.cfg.env, ctx.host, BrTable(vs, d), caught, m, fuel) ==
              Branch(TargetOf(if idx < |vs| then vs[idx] else d), m.(stack := DropN(m.stack, 1)))
  {
    hide LowerCases;
  }

  lemma SwitchStep(ctx: Ctx, x: CExpr, cs: Cases, k: Code, s: Store, v: Value)
    requires EvalX(s, x) == Some(v)
    ensures Steps(ctx.host, ctx.p, Running(Append(One(Switch(x, cs)), k), s), 1)
        == Running(Append(SelectCase(cs, v.bits), k), s)
  {
    AppendOne(Switch(x, cs), k);
    OneStep(ctx, Running(Cons(Switch(x, cs), k), s), Running(Append(SelectCase(cs, v.bits), k), s));
  }

  // ----- exceptions -----

  /** A raised exception, about to be thrown by the writer's own code: the pending exception
      is set and the operands above `below` are gone. */
  ghost predicate Pending(ctx: Ctx, w: Writer, below: seq<Value>, caught: Caught, x: Exn, m: Machine, s: Store) {
    && |below| <= |w.ts| && ValsAt(w.ts[..|below|], below, s.slots)
    && DataRel(ctx, m, s)
    && s.unwind == TopUnwind(w.tries)
    && TryVars(w.tries, ctx.hs, s.outer, s.bufs)
    && SavedOk(caught, ctx.cfg.rethrown, s.saved)
    && s.exn == x && x.tag < |ctx.cfg.env.tags| && |x.args| == |ctx.cfg.env.tags[x.tag]|
  }

  /** The written throw reaches the innermost open try's handler, or the caller. */
  lemma SimThrow(ctx: Ctx, w: Writer, below: seq<Value>, caught: Caught, x: Exn, m: Machine, k: Code, s: Store)
    returns (n: nat, c: Conf)
    requires Pending(ctx, w, below, caught, x, m, s) && JumpsOk(ctx, LowerThrow(w).1)
    ensures c == Steps(ctx.host, ctx.p, Running(Append(LowerThrow(w).0, k), s), n)
    ensures RaiseRel(ctx, w, |w.tries|, below, caught, x, m, c)
  {
    assert w.tries[..|w.tries|] == w.tries;
    n := 1;
    if w.tries == [] {
      c := Escaped(s);
      AppendOne(RtThrow, k);
      OneStep(ctx, Running(Cons(RtThrow, k), s), c);
    } else {
      var j := |w.tries| - 1;
      var l := CatchLabel(w.tries[j].name);
      assert LowerThrow(w).1.tries[j].used;
      c := Running(ctx.hs[j], s);
      AppendOne(Goto(l), k);
      GotoStep(ctx, l, k, s, ctx.hs[j]);
    }
  }

  /** Setting the pending exception. */
  lemma SetPending(ctx: Ctx, w: Writer, below: seq<Value>, caught: Caught, x: Exn, m: Machine, m1: Machine, s: Store)
    requires Rel(ctx, w, below, caught, m, s) && m1 == m.(stack := m1.stack)
    requires x.tag < |ctx.cfg.env.tags| && |x.args| == |ctx.cfg.env.tags[x.tag]|
    ensures Pending(ctx, w, below, caught, x, m1, s.(exn := x))
  {
    ValsPrefix(w.ts, below + m.stack, s.slots, |below|);
    assert (below + m.stack)[..|below|] == below;
  }

  lemma SimThrowExpr(ctx: Ctx, t: nat, used: set<string>, ex: set<string>, tb: seq<Type>, ts: seq<Type>, w: Writer,
      below: seq<Value>, caught: Caught, m: Machine, k: Code, s: Store, fuel: nat)
    returns (n: nat, c: Conf)
    requires t < |ctx.cfg.env.tags| && EndsWith(ts, ctx.cfg.env.tags[t])
    requires Ready(ctx, used, ex, tb, ts, w, below, caught, m, s)
    requires JumpsOk(ctx, LowerExpr(ctx.cfg, Throw(t), w).1)
    ensures var (code, w1) := LowerExpr(ctx.cfg, Throw(t), w);
            c == Steps(ctx.host, ctx.p, Running(Append(code, k), s), n)
            && Arrived(ctx, w, w1, below, caught, Eval(ctx.cfg.env, ctx.host, Throw(t), caught, m, fuel), k, n, fuel, c)
  {
    hide Rel, StacksOk, HostOk, Pending, JumpsOk, LowerThrow, TopSlots, LowerExpr, Eval, Steps, RaiseRel, CaughtOk;
    var p := |ctx.cfg.env.tags[t]|;
    ReadyVals(ctx, used, ex, tb, ts, w, below, caught, m, s, ctx.cfg.env.tags[t]);
    TopSlotsHold(w.ts, below, m.stack, s, p);
    var x := Exn(t, TopN(m.stack, p));
    var m1 := m.(stack := DropN(m.stack, p));
    SetPending(ctx, w, below, caught, x, m, m1, s);
    ThrowUnfold(ctx, t, w, caught, m, fuel);
    var st := LoadExn(t, TopSlots(w.ts, p));
    var (code, w1) := LowerThrow(w);
    var s1 := s.(exn := x);
    OneStep(ctx, Running(Cons(st, Append(code, k)), s), Running(Append(code, k), s1));
    var n1;
    JumpsSame(ctx, w1, w1.(dead := true));
    n1, c := SimThrow(ctx, w, below, caught, x, m1, k, s1);
    n := 1 + n1;
    Chain(ctx, Running(Cons(st, Append(code, k)), s), 1, Running(Append(code, k), s1), n1, c);
  }

  lemma ThrowUnfold(ctx: Ctx, t: nat, w: Writer, caught: Caught, m: Machine, fuel: nat)
    requires t < |ctx.cfg.env.tags|
    ensures var p := |ctx.cfg.env.tags[t]|;
            LowerExpr(ctx.cfg, Throw(t), w) == (Cons(LoadExn(t, TopSlots(w.ts, p)), LowerThrow(w).0),
                LowerThrow(w).1.(dead := true))
            && Eval(ctx.cfg.env, ctx.host, Throw(t), caught, m, fuel)
                == Raise(Exn(t, TopN(m.stack, p)), m.(stack := DropN(m.stack, p)))
  {
    hide LowerThrow, TopSlots;
  }

  lemma SimRethrow(ctx: Ctx, l: string, used: set<string>, ex: set<string>, tb: seq<Type>, ts: seq<Type>, w: Writer,
      below: seq<Value>, caught: Caught, m: Machine, k: Code, s: Store, fuel: nat)
    returns (n: nat, c: Conf)
    requires l in caught && l in ctx.cfg.rethrown
    requires Ready(ctx, used, ex, tb, ts, w, below, caught, m, s)
    requires JumpsOk(ctx, LowerExpr(ctx.cfg, Rethrow(Name(l)), w).1)
    ensures var (code, w1) := LowerExpr(ctx.cfg, Rethrow(Name(l)), w);
            c == Steps(ctx.host, ctx.p, Running(Append(code, k), s), n)
            && Arrived(ctx, w, w1, below, caught, Eval(ctx.cfg.env, ctx.host, Rethrow(Name(l)), caught, m, fuel), k,
                n, fuel, c)
  {
    hide Rel, StacksOk, HostOk, CaughtOk, Pending, JumpsOk, LowerThrow, LowerExpr, Eval, Append, Steps, RaiseRel;
    var x := caught[l];
    var (code, w1) := LowerThrow(w);
    RethrowUnfold(ctx, l, w, caught, m, fuel);
    var s1 := s.(exn := x);
    ReloadStep(ctx, l, used, ex, tb, ts, w, below, caught, m, Append(code, k), s);
    var n1;
    JumpsSame(ctx, w1, w1.(dead := true));
    n1, c := SimThrow(ctx, w, below, caught, x, m, k, s1);
    n := 1 + n1;
    AppendCons(ReloadExn(l), code, k);
    Chain(ctx, Running(Cons(ReloadExn(l), Append(code, k)), s), 1, Running(Append(code, k), s1), n1, c);
  }

  lemma AppendCons(st: Stmt, code: Code, k: Code)
    ensures Append(Cons(st, code), k) == Cons(st, Append(code, k))
  {}

  lemma RethrowUnfold(ctx: Ctx, l: string, w: Writer, caught: Caught, m: Machine, fuel: nat)
    requires l in caught
    ensures LowerExpr(ctx.cfg, Rethrow(Name(l)), w) == (Cons(ReloadExn(l), LowerThrow(w).0),
        LowerThrow(w).1.(dead := true))
    ensures Eval(ctx.cfg.env, ctx.host, Rethrow(Name(l)), caught, m, fuel) == Raise(caught[l], m)
  {
    hide LowerThrow;
  }

  /** Making a saved exception the pending one. */
  lemma ReloadStep(ctx: Ctx, l: string, used: set<string>, ex: set<string>, tb: seq<Type>, ts: seq<Type>, w: Writer,
      below: seq<Value>, caught: Caught, m: Machine, k: Code, s: Store)
    requires l in caught && l in ctx.cfg.rethrown && Ready(ctx, used, ex, tb, ts, w, below, caught, m, s)
    ensures Steps(ctx.host, ctx.p, Running(Cons(ReloadExn(l), k), s), 1) == Running(k, s.(exn := caught[l]))
    ensures Pending(ctx, w, below, caught, caught[l], m, s.(exn := caught[l]))
  {
    hide Pending, StacksOk, HostOk;
    SetPending(ctx, w, below, caught, caught[l], m, m, s);
    OneStep(ctx, Running(Cons(ReloadExn(l), k), s), Running(k, s.(exn := caught[l])));
  }

  lemma ReadyVals(ctx: Ctx, used: set<string>, ex: set<string>, tb: seq<Type>, ts: seq<Type>, w: Writer,
      below: seq<Value>, caught: Caught, m: Machine, s: Store, sig: seq<Type>)
    requires Ready(ctx, used, ex, tb, ts, w, below, caught, m, s) && EndsWith(ts, sig)
    ensures ValsAt(w.ts, below + m.stack, s.slots) && |m.stack| == |ts| && |sig| <= |ts|
  {}
}

/** Plain instructions and branches: the code written for them does what they do. */
module LoweringInstr {
  import opened Ir
  import opened Wasm
  import opened Typing
  import opened StackTypes
  import opened CLang
  import opened CNumbers
  import opened Lowering
  import opened LoweringShape
  import opened LoweringRel

  /** The stack after an instruction that replaces `drop` operands by the value of `e`. */
  lemma SimAssign(ctx: Ctx, w: Writer, below: seq<Value>, caught: Caught, m: Machine, s: Store, k: Code, drop: nat,
      t: Type, e: CExpr, v: Value)
    requires Rel(ctx, w, below, caught, m, s) && drop <= |m.stack|
    requires EvalX(s, e) == Some(v)
    ensures var c1 := Steps(ctx.host, ctx.p, Running(Cons(Assign(|w.ts| - drop, t, e), k), s), 1);
            c1.Running? && c1.code == k
            && Rel(ctx, w.(ts := DropN(w.ts, drop) + [t]), below, caught, m.(stack := DropN(m.stack, drop) + [v]), c1.s)
  {
    hide ValsAt, TopUnwind, TryVars, SavedOk, Render, EvalX;
    RelHeights(ctx, w, below, caught, m, s);
    var h: nat := |w.ts| - drop;
    var all := below + m.stack;
    var s1 := s.(slots := s.slots[(h, t) := v]);
    ValsPush(w.ts, all, s.slots, h, t, v);
    assert all[..h] + [v] == below + (DropN(m.stack, drop) + [v]);
    OneAssign(ctx, h, t, e, v, k, s);
  }

  lemma OneAssign(ctx: Ctx, h: nat, t: Type, e: CExpr, v: Value, k: Code, s: Store)
    requires EvalX(s, e) == Some(v)
    ensures Steps(ctx.host, ctx.p, Running(Cons(Assign(h, t, e), k), s), 1)
        == Running(k, s.(slots := s.slots[(h, t) := v]))
  {
    hide EvalX;
  }

  lemma SimDrop(ctx: Ctx, w: Writer, below: seq<Value>, caught: Caught, m: Machine, s: Store, drop: nat)
    requires Rel(ctx, w, below, caught, m, s) && drop <= |m.stack|
    ensures Rel(ctx, w.(ts := DropN(w.ts, drop)), below, caught, m.(stack := DropN(m.stack, drop)), s)
  {
    var all := below + m.stack;
    ValsPrefix(w.ts, all, s.slots, |w.ts| - drop);
    assert all[..|w.ts| - drop] == below + DropN(m.stack, drop);
  }

  /** The stack variables of a typed operand stack have the operands' types and values. */
  lemma Operand(ctx: Ctx, w: Writer, below: seq<Value>, caught: Caught, m: Machine, s: Store, tb: seq<Type>,
      ts: seq<Type>, pops: seq<Type>, i: nat)
    requires Rel(ctx, w, below, caught, m, s) && w.ts == tb + ts && |tb| == |below|
    requires EndsWith(ts, pops) && i < |pops|
    ensures |m.stack| == |ts|
    ensures StackVar(w.ts, i) == (|w.ts| - 1 - i, pops[|pops| - 1 - i])
    ensures EvalX(s, VarX(StackVar(w.ts, i))) == Some(Peek(m.stack, i))
  {
    ShiftDrop(tb, ts, pops, []);
    VarHolds(w.ts, below, m.stack, s, i);
  }

  /** `i` replaces `drop` operands by the value `r` of the expression `e`, of type `t`;
      it traps when there is none. */
  ghost predicate Computes(ctx: Ctx, i: Instr, w: Writer, m: Machine, s: Store, drop: nat, t: Type, e: CExpr,
      r: Option<Value>) {
    && drop <= |m.stack|
    && LowerInstr(ctx.cfg, i, w.ts) == (One(Assign(|w.ts| - drop, t, e)), DropN(w.ts, drop) + [t])
    && EvalInstr(ctx.cfg.env, ctx.host, i, m) == (match r case None => Trap(m) case Some(v) => Push(m, drop, v))
    && EvalX(s, e) == r
  }

  lemma ComputesBinary(ctx: Ctx, ty: Type, op: BinOp, tb: seq<Type>, ts: seq<Type>, w: Writer, below: seq<Value>,
      caught: Caught, m: Machine, s: Store)
    requires EndsWith(ts, [ty, ty]) && w.ts == tb + ts && |tb| == |below|
    requires Rel(ctx, w, below, caught, m, s)
    ensures Computes(ctx, Binary(ty, op), w, m, s, 2, ty,
                     BinaryX(ty, op, VarX(StackVar(w.ts, 1)), VarX(StackVar(w.ts, 0))),
                     ToValue(ty, BinResult(ty, op, Peek(m.stack, 1).bits, Peek(m.stack, 0).bits)))
  {
    hide Rel, BinaryX, BinResult, EvalX;
    Operand(ctx, w, below, caught, m, s, tb, ts, [ty, ty], 0);
    Operand(ctx, w, below, caught, m, s, tb, ts, [ty, ty], 1);
    BinaryAgrees(s, ty, op, VarX(StackVar(w.ts, 1)), VarX(StackVar(w.ts, 0)), Peek(m.stack, 1), Peek(m.stack, 0));
    BinaryCode(ctx.cfg, ty, op, w.ts);
    BinaryEval(ctx.cfg.env, ctx.host, ty, op, m);
    hide LowerInstr, EvalInstr, StackVar, Peek, DropN, VarX;
  }

  lemma BinaryCode(cfg: Config, ty: Type, op: BinOp, ts: seq<Type>)
    requires |ts| >= 2 && StackVar(ts, 1) == (|ts| - 2, ty)
    ensures LowerInstr(cfg, Binary(ty, op), ts) ==
              (One(Assign(|ts| - 2, ty, BinaryX(ty, op, VarX(StackVar(ts, 1)), VarX(StackVar(ts, 0))))),
                  DropN(ts, 2) + [ty])
  {
    hide BinaryX;
    assert ts[|ts| - 2] == ty;
    assert DropN(ts, 1) + [] == DropN(ts, 2) + [ty];
  }

  lemma BinaryEval(env: Env, host: Host, ty: Type, op: BinOp, m: Machine)
    ensures EvalInstr(env, host, Binary(ty, op), m) ==
              match ToValue(ty, BinResult(ty, op, Peek(m.stack, 1).bits, Peek(m.stack, 0).bits))
              case None => Trap(m)
              case Some(v) => Push(m, 2, v)
  {
    hide BinResult;
  }

  lemma ComputesCompare(ctx: Ctx, ty: Type, op: RelOp, tb: seq<Type>, ts: seq<Type>, w: Writer, below: seq<Value>,
      caught: Caught, m: Machine, s: Store)
    requires EndsWith(ts, [ty, ty]) && w.ts == tb + ts && |tb| == |below|
    requires Rel(ctx, w, below, caught, m, s)
    ensures Computes(ctx, Compare(ty, op), w, m, s, 2, I32,
                     CompareX(ty, op, VarX(StackVar(w.ts, 1)), VarX(StackVar(w.ts, 0))),
                     Some(BoolValue(RelResult(ty, op, Peek(m.stack, 1).bits, Peek(m.stack, 0).bits))))
  {
    hide Rel, CompareX, RelResult, EvalX;
    Operand(ctx, w, below, caught, m, s, tb, ts, [ty, ty], 0);
    Operand(ctx, w, below, caught, m, s, tb, ts, [ty, ty], 1);
    CompareAgrees(s, ty, op, VarX(StackVar(w.ts, 1)), VarX(StackVar(w.ts, 0)), Peek(m.stack, 1), Peek(m.stack, 0));
  }

  lemma ComputesGet(ctx: Ctx, i: Instr, w: Writer, below: seq<Value>, caught: Caught, m: Machine, s: Store, t: Type,
      e: CExpr, v: Value)
    requires (i == Const(v) && t == v.ty && e == LitX(v))
          || (i.LocalGet? && i.local < |ctx.cfg.env.locals| && t == ctx.cfg.env.locals[i.local]
              && e == LocalX(i.local) && v == At(m.locals, i.local))
          || (i.GlobalGet? && i.global < |ctx.cfg.env.globals| && t == ctx.cfg.env.globals[i.global]
              && e == GlobalX(i.global) && v == At(m.world.globals, i.global))
    requires Rel(ctx, w, below, caught, m, s)
    ensures Computes(ctx, i, w, m, s, 0, t, e, Some(v))
  {}

  lemma ComputesEqz(ctx: Ctx, ty: Type, tb: seq<Type>, ts: seq<Type>, w: Writer, below: seq<Value>, caught: Caught,
      m: Machine, s: Store)
    requires EndsWith(ts, [ty]) && w.ts == tb + ts && |tb| == |below|
    requires Rel(ctx, w, below, caught, m, s)
    ensures Computes(ctx, Eqz(ty), w, m, s, 1, I32, NotX(VarX(StackVar(w.ts, 0))),
        Some(BoolValue(Peek(m.stack, 0).bits == 0)))
  {
    Operand(ctx, w, below, caught, m, s, tb, ts, [ty], 0);
    hide Rel;
  }

  lemma ComputesSelect(ctx: Ctx, tb: seq<Type>, ts: seq<Type>, w: Writer, below: seq<Value>, caught: Caught,
      m: Machine, s: Store)
    requires |ts| >= 3 && EndsWith(ts, [ts[|ts| - 3], ts[|ts| - 3], I32]) && w.ts == tb + ts && |tb| == |below|
    requires Rel(ctx, w, below, caught, m, s)
    ensures Computes(ctx, Select, w, m, s, 3, ts[|ts| - 3],
                     CondX(VarX(StackVar(w.ts, 0)), VarX(StackVar(w.ts, 2)), VarX(StackVar(w.ts, 1))),
                     Some(if Peek(m.stack, 0).bits != 0 then Peek(m.stack, 2) else Peek(m.stack, 1)))
  {
    hide Rel, BinResult, StackVar;
    var t := ts[|ts| - 3];
    Operand(ctx, w, below, caught, m, s, tb, ts, [t, t, I32], 0);
    Operand(ctx, w, below, caught, m, s, tb, ts, [t, t, I32], 1);
    Operand(ctx, w, below, caught, m, s, tb, ts, [t, t, I32], 2);
  }

  /** Instructions that compute one value from their operands. */
  lemma SimValue(ctx: Ctx, i: Instr, tb: seq<Type>, ts: seq<Type>, w: Writer, below: seq<Value>, caught: Caught,
      m: Machine, k: Code, s: Store, fuel: nat)
    returns (n: nat, c: Conf)
    requires i.Const? || i.Binary? || i.Compare? || i.Eqz? || i.Select? || i.LocalGet? || i.GlobalGet?
    requires TypeInstr(ctx.cfg.env, i, ts).Live? && w.ts == tb + ts && |tb| == |below|
    requires Rel(ctx, w, below, caught, m, s)
    ensures var (code, ts1) := LowerInstr(ctx.cfg, i, w.ts);
            c == Steps(ctx.host, ctx.p, Running(Append(code, k), s), n)
            && Arrived(ctx, w, w.(ts := ts1), below, caught, EvalInstr(ctx.cfg.env, ctx.host, i, m), k, n, fuel, c)
  {
    hide LowerInstr, EvalInstr, Computes, Rel, Arrived, Steps;
    var drop, t, e, r := Computed(ctx, i, tb, ts, w, below, caught, m, s);
    n, c := SimComputes(ctx, i, w, below, caught, m, k, s, fuel, drop, t, e, r);
  }

  lemma Computed(ctx: Ctx, i: Instr, tb: seq<Type>, ts: seq<Type>, w: Writer, below: seq<Value>, caught: Caught,
      m: Machine, s: Store)
    returns (drop: nat, t: Type, e: CExpr, r: Option<Value>)
    requires i.Const? || i.Binary? || i.Compare? || i.Eqz? || i.Select? || i.LocalGet? || i.GlobalGet?
    requires TypeInstr(ctx.cfg.env, i, ts).Live? && w.ts == tb + ts && |tb| == |below|
    requires Rel(ctx, w, below, caught, m, s)
    ensures Computes(ctx, i, w, m, s, drop, t, e, r)
  {
    hide Computes, Rel, BinaryX, CompareX, BinResult, RelResult, StackVar;
    match i {
      case Const(x) =>
        drop, t, e, r := 0, x.ty, LitX(x), Some(x);
        ComputesGet(ctx, i, w, below, caught, m, s, t, e, x);
      case Binary(ty, op) =>
        ComputesBinary(ctx, ty, op, tb, ts, w, below, caught, m, s);
        drop, t, e := 2, ty, BinaryX(ty, op, VarX(StackVar(w.ts, 1)), VarX(StackVar(w.ts, 0)));
        r := ToValue(ty, BinResult(ty, op, Peek(m.stack, 1).bits, Peek(m.stack, 0).bits));
      case Compare(ty, op) =>
        ComputesCompare(ctx, ty, op, tb, ts, w, below, caught, m, s);
        drop, t, e := 2, I32, CompareX(ty, op, VarX(StackVar(w.ts, 1)), VarX(StackVar(w.ts, 0)));
        r := Some(BoolValue(RelResult(ty, op, Peek(m.stack, 1).bits, Peek(m.stack, 0).bits)));
      case Eqz(ty) =>
        ComputesEqz(ctx, ty, tb, ts, w, below, caught, m, s);
        drop, t, e, r := 1, I32, NotX(VarX(StackVar(w.ts, 0))), Some(BoolValue(Peek(m.stack, 0).bits == 0));
      case Select =>
        ComputesSelect(ctx, tb, ts, w, below, caught, m, s);
        drop, t, e := 3, ts[|ts| - 3], CondX(VarX(StackVar(w.ts, 0)), VarX(StackVar(w.ts, 2)), VarX(StackVar(w.ts, 1)));
        r := Some(if Peek(m.stack, 0).bits != 0 then Peek(m.stack, 2) else Peek(m.stack, 1));
      case LocalGet(x) =>
        drop, t, e, r := 0, ctx.cfg.env.locals[x], LocalX(x), Some(At(m.locals, x));
        ComputesGet(ctx, i, w, below, caught, m, s, t, e, r.value);
      case GlobalGet(x) =>
        drop, t, e, r := 0, ctx.cfg.env.globals[x], GlobalX(x), Some(At(m.world.globals, x));
        ComputesGet(ctx, i, w, below, caught, m, s, t, e, r.value);
    }
  }

  lemma SimComputes(ctx: Ctx, i: Instr, w: Writer, below: seq<Value>, caught: Caught, m: Machine, k: Code, s: Store,
      fuel: nat, drop: nat, t: Type, e: CExpr, r: Option<Value>)
    returns (n: nat, c: Conf)
    requires Computes(ctx, i, w, m, s, drop, t, e, r)
    requires Rel(ctx, w, below, caught, m, s)
    ensures var (code, ts1) := LowerInstr(ctx.cfg, i, w.ts);
            c == Steps(ctx.host, ctx.p, Running(Append(code, k), s), n)
            && Arrived(ctx, w, w.(ts := ts1), below, caught, EvalInstr(ctx.cfg.env, ctx.host, i, m), k, n, fuel, c)
  {
    hide LowerInstr, EvalInstr, EvalX;
    var st := Assign(|w.ts| - drop, t, e);
    assert Append(One(st), k) == Cons(st, k);
    n, c := 1, Steps(ctx.host, ctx.p, Running(Cons(st, k), s), 1);
    match r
    case None => OneStep(ctx, Running(Cons(st, k), s), Aborted(s));
    case Some(v) => SimAssign(ctx, w, below, caught, m, s, k, drop, t, e, v);
  }

  /** Instructions that only pop, or store an operand into a local or global. */
  lemma SimSet(ctx: Ctx, i: Instr, tb: seq<Type>, ts: seq<Type>, w: Writer, below: seq<Value>, caught: Caught,
      m: Machine, k: Code, s: Store, fuel: nat)
    returns (n: nat, c: Conf)
    requires i.Drop? || i.Nop? || i.LocalSet? || i.LocalTee? || i.GlobalSet?
    requires TypeInstr(ctx.cfg.env, i, ts).Live? && w.ts == tb + ts && |tb| == |below|
    requires Rel(ctx, w, below, caught, m, s)
    ensures var (code, ts1) := LowerInstr(ctx.cfg, i, w.ts);
            c == Steps(ctx.host, ctx.p, Running(Append(code, k), s), n)
            && Arrived(ctx, w, w.(ts := ts1), below, caught, EvalInstr(ctx.cfg.env, ctx.host, i, m), k, n, fuel, c)
  {
    SetCode(ctx, i, w, m);
    if i.Nop? {
      n, c := 0, Running(k, s);
    } else {
      var t := if i.Drop? then ts[|ts| - 1] else if i.GlobalSet? then ctx.cfg.env.globals[i.global]
          else ctx.cfg.env.locals[i.local];
      Operand(ctx, w, below, caught, m, s, tb, ts, [t], 0);
      hide LowerInstr, EvalInstr, TypeInstr;
      if i.Drop? {
        SimDrop(ctx, w, below, caught, m, s, 1);
        n, c := 0, Running(k, s);
      } else {
        n := 1;
        c := SimSetStep(ctx, i, w, below, caught, m, k, s);
      }
    }
  }

  lemma SimSetStep(ctx: Ctx, i: Instr, w: Writer, below: seq<Value>, caught: Caught, m: Machine, k: Code, s: Store)
    returns (c: Conf)
    requires i.LocalSet? || i.LocalTee? || i.GlobalSet?
    requires Rel(ctx, w, below, caught, m, s) && |m.stack| >= 1
    requires EvalX(s, VarX(StackVar(w.ts, 0))) == Some(Peek(m.stack, 0))
    ensures var (code, ts1) := LowerInstr(ctx.cfg, i, w.ts);
            var o := EvalInstr(ctx.cfg.env, ctx.host, i, m);
            && c == Steps(ctx.host, ctx.p, Running(Append(code, k), s), 1)
            && o.Next? && c.Running? && c.code == k && Rel(ctx, w.(ts := ts1), below, caught, o.m, c.s)
  {
    var v0 := VarX(StackVar(w.ts, 0));
    var x := Peek(m.stack, 0);
    SetCode(ctx, i, w, m);
    SimDrop(ctx, w, below, caught, m, s, 1);
    hide LowerInstr, EvalInstr, EvalX, Rel, StackVar, Peek, DropN, VarX;
    match i {
      case GlobalSet(g) =>
        RelSet(ctx, w.(ts := DropN(w.ts, 1)), below, caught, m.(stack := DropN(m.stack, 1)), s, 0, g, x);
        c := Running(k, s.(world := s.world.(globals := SetAt(s.world.globals, g, x))));
        OneStep(ctx, Running(Cons(SetGlobal(g, v0), k), s), c);
      case LocalSet(l) =>
        RelSet(ctx, w.(ts := DropN(w.ts, 1)), below, caught, m.(stack := DropN(m.stack, 1)), s, l, 0, x);
        c := Running(k, s.(locals := SetAt(s.locals, l, x)));
        OneStep(ctx, Running(Cons(SetLocal(l, v0), k), s), c);
      case LocalTee(l) =>
        RelSet(ctx, w, below, caught, m, s, l, 0, x);
        c := Running(k, s.(locals := SetAt(s.locals, l, x)));
        OneStep(ctx, Running(Cons(SetLocal(l, v0), k), s), c);
    }
  }

  lemma RelSet(ctx: Ctx, w: Writer, below: seq<Value>, caught: Caught, m: Machine, s: Store, l: nat, g: nat, x: Value)
    requires Rel(ctx, w, below, caught, m, s)
    ensures Rel(ctx, w, below, caught, m.(locals := SetAt(m.locals, l, x)), s.(locals := SetAt(s.locals, l, x)))
    ensures Rel(ctx, w, below, caught, m.(world := m.world.(globals := SetAt(m.world.globals, g, x))),
                s.(world := s.world.(globals := SetAt(s.world.globals, g, x))))
  {}

  lemma SetCode(ctx: Ctx, i: Instr, w: Writer, m: Machine)
    requires i.Drop? || i.Nop? || i.LocalSet? || i.LocalTee? || i.GlobalSet?
    ensures var v0 := VarX(StackVar(w.ts, 0));
            var x := Peek(m.stack, 0);
            && LowerInstr(ctx.cfg, i, w.ts) ==
                 (match i
                  case LocalSet(l) => One(SetLocal(l, v0))
                  case LocalTee(l) => One(SetLocal(l, v0))
                  case GlobalSet(g) => One(SetGlobal(g, v0))
                  case _ => Nil,
                  if i.Nop? || i.LocalTee? then w.ts else DropN(w.ts, 1))
            && EvalInstr(ctx.cfg.env, ctx.host, i, m) ==
                 Next(match i
                      case LocalSet(l) => m.(stack := DropN(m.stack, 1), locals := SetAt(m.locals, l, x))
                      case LocalTee(l) => m.(locals := SetAt(m.locals, l, x))
                      case GlobalSet(g) => m.(stack := DropN(m.stack, 1),
                          world := m.world.(globals := SetAt(m.world.globals, g, x)))
                      case Drop => m.(stack := DropN(m.stack, 1))
                      case _ => m)
  {
    assert DropN(w.ts, 0) + [] == w.ts;
    assert DropN(w.ts, 1) + [] == DropN(w.ts, 1);
  }

  /** The instrumentation prints one record to each stream and touches nothing else. */
  lemma SimTrace(ctx: Ctx, w: Writer, below: seq<Value>, caught: Caught, m: Machine, s: Store, store: bool,
      addr: CExpr, a: Value, k: Code)
    returns (n: nat, s1: Store)
    requires Rel(ctx, w, below, caught, m, s) && EvalX(s, addr) == Some(a)
    ensures Steps(ctx.host, ctx.p, Running(Append(TraceCode(ctx.cfg.trace, store, addr), k), s), n) == Running(k, s1)
    ensures Rel(ctx, w, below, caught, m.(log := m.log + [if store then Stored(a.bits) else Loaded(a.bits)]), s1)
    ensures s1 == s.(out := s1.out, file := s1.file)
  {
    var e := if store then Stored(a.bits) else Loaded(a.bits);
    RenderPush(ctx.p.base, m.log, e);
    if ctx.cfg.trace {
      s1 := s.(out := s.out + [RecordOf(ctx.p.base, e)], file := s.file + [RecordOf(ctx.p.base, e)]);
      n := 2;
      TracePrints(ctx, s, store, addr, a, k);
    } else {
      n, s1 := 0, s;
    }
  }

  lemma TracePrints(ctx: Ctx, s: Store, store: bool, addr: CExpr, a: Value, k: Code)
    requires EvalX(s, addr) == Some(a)
    ensures var r := [RecordOf(ctx.p.base, if store then Stored(a.bits) else Loaded(a.bits))];
            Steps(ctx.host, ctx.p, Running(Append(TraceCode(true, store, addr), k), s), 2)
            == Running(k, s.(out := s.out + r, file := s.file + r))
  {
    hide EvalX;
    var r := [RecordOf(ctx.p.base, if store then Stored(a.bits) else Loaded(a.bits))];
    var sa := s.(out := s.out + r);
    EvalXStreams(s, sa.out, sa.file, addr);
    assert sa == s.(out := sa.out, file := sa.file);
    var second := Print(LogFile, store, addr);
    assert Append(One(second), k) == Cons(second, k);
    TwoSteps(ctx, Running(Cons(Print(Stdout, store, addr), Cons(second, k)), s), Running(Cons(second, k), sa),
             Running(k, sa.(file := sa.file + r)));
  }

  lemma TwoSteps(ctx: Ctx, a: Conf, b: Conf, c: Conf)
    requires Step(ctx.host, ctx.p, a) == b && Step(ctx.host, ctx.p, b) == c
    ensures Steps(ctx.host, ctx.p, a, 2) == c
  {
    assert Steps(ctx.host, ctx.p, b, 1) == Steps(ctx.host, ctx.p, c, 0);
  }

  lemma EvalXStreams(s: Store, out: seq<Record>, file: seq<Record>, e: CExpr)
    ensures EvalX(s.(out := out, file := file), e) == EvalX(s, e)
  {}

  lemma SimLoad(ctx: Ctx, i: Instr, tb: seq<Type>, ts: seq<Type>, w: Writer, below: seq<Value>, caught: Caught,
      m: Machine, k: Code, s: Store, fuel: nat)
    returns (n: nat, c: Conf)
    requires i.Load?
    requires EndsWith(ts, [I32]) && w.ts == tb + ts && |tb| == |below|
    requires Rel(ctx, w, below, caught, m, s)
    ensures var (code, ts1) := LowerInstr(ctx.cfg, i, w.ts);
            c == Steps(ctx.host, ctx.p, Running(Append(code, k), s), n)
            && Arrived(ctx, w, w.(ts := ts1), below, caught, EvalInstr(ctx.cfg.env, ctx.host, i, m), k, n, fuel, c)
  {
    hide LowerInstr, EvalInstr, EvalX, ReadMem, Append, TraceCode, Rel, Step, Steps, Arrived, StackVar, Peek;
    var Load(acc, _, mi, offset) := i;
    Operand(ctx, w, below, caught, m, s, tb, ts, [I32], 0);
    var v0 := StackVar(w.ts, 0);
    var a := Peek(m.stack, 0);
    var st := LoadMem(v0.0, acc.ty, acc, mi, VarX(v0), offset);
    var trace := TraceCode(ctx.cfg.trace, false, VarX(v0));
    LoadCode(ctx, i, w, m);
    AppendAssoc(trace, One(st), k);
    AppendOne(st, k);
    var n1, s1 := SimTrace(ctx, w, below, caught, m, s, false, VarX(v0), a, Cons(st, k));
    EvalXStreams(s, s1.out, s1.file, VarX(v0));
    var m1 := m.(log := m.log + [Loaded(a.bits)]);
    RelData(ctx, w, below, caught, m1, s1);
    n := n1 + 1;
    c := LoadStep(ctx, acc, mi, offset, VarX(v0), w, below, caught, m1, k, s1);
    StepsAdd(ctx.host, ctx.p, Running(Append(Append(trace, One(st)), k), s), n1, 1);
    LoadArrives(ctx, i, w, below, caught, m, m1, k, n, fuel, c);
  }

  lemma RelData(ctx: Ctx, w: Writer, below: seq<Value>, caught: Caught, m: Machine, s: Store)
    requires Rel(ctx, w, below, caught, m, s)
    ensures DataRel(ctx, m, s)
  {}

  lemma LoadArrives(ctx: Ctx, i: Instr, w: Writer, below: seq<Value>, caught: Caught, m: Machine, m1: Machine, k: Code,
      n: nat, fuel: nat, c: Conf)
    requires i.Load? && m1 == m.(log := m1.log)
    requires EvalInstr(ctx.cfg.env, ctx.host, i, m) ==
               match ReadMem(m.world.Mem(i.memidx), i.acc, Peek(m.stack, 0).bits + i.offset)
               case None => Trap(m1)
               case Some(v) => Push(m1, 1, v)
    requires match ReadMem(m1.world.Mem(i.memidx), i.acc, Peek(m1.stack, 0).bits + i.offset)
             case None => c.Aborted? && DataRel(ctx, m1, c.s)
             case Some(v) =>
               && c.Running? && c.code == k
               && Rel(ctx, w.(ts := DropN(w.ts, 1) + [i.acc.ty]), below, caught,
                   m1.(stack := DropN(m1.stack, 1) + [v]), c.s)
    ensures Arrived(ctx, w, w.(ts := DropN(w.ts, 1) + [i.acc.ty]), below, caught,
        EvalInstr(ctx.cfg.env, ctx.host, i, m), k, n, fuel, c)
  {
    hide EvalInstr, ReadMem, Rel, DataRel;
  }

  lemma LoadCode(ctx: Ctx, i: Instr, w: Writer, m: Machine)
    requires i.Load?
    ensures var v0 := StackVar(w.ts, 0);
            LowerInstr(ctx.cfg, i, w.ts) ==
              (Append(TraceCode(ctx.cfg.trace, false, VarX(v0)),
                  One(LoadMem(v0.0, i.acc.ty, i.acc, i.memidx, VarX(v0), i.offset))),
               DropN(w.ts, 1) + [i.acc.ty])
    ensures var a := Peek(m.stack, 0).bits;
            var m1 := m.(log := m.log + [Loaded(a)]);
            EvalInstr(ctx.cfg.env, ctx.host, i, m) ==
              match ReadMem(m.world.Mem(i.memidx), i.acc, a + i.offset)
              case None => Trap(m1)
              case Some(v) => Push(m1, 1, v)
  {
    hide ReadMem;
  }

  lemma RelWorld(ctx: Ctx, w: Writer, below: seq<Value>, caught: Caught, m: Machine, s: Store)
    requires Rel(ctx, w, below, caught, m, s)
    ensures s.world == m.world
  {}

  lemma LoadStep(ctx: Ctx, acc: Access, mi: nat, offset: nat, addr: CExpr, w: Writer, below: seq<Value>,
      caught: Caught, m: Machine, k: Code, s: Store)
    returns (c: Conf)
    requires Rel(ctx, w, below, caught, m, s) && |m.stack| >= 1
    requires EvalX(s, addr) == Some(Peek(m.stack, 0))
    ensures c == Steps(ctx.host, ctx.p, Running(Cons(LoadMem(|w.ts| - 1, acc.ty, acc, mi, addr, offset), k), s), 1)
    ensures match ReadMem(m.world.Mem(mi), acc, Peek(m.stack, 0).bits + offset)
            case None => c == Aborted(s)
            case Some(v) =>
              c.Running? && c.code == k
              && Rel(ctx, w.(ts := DropN(w.ts, 1) + [acc.ty]), below, caught, m.(stack := DropN(m.stack, 1) + [v]), c.s)
  {
    hide ReadMem, Rel;
    var st := LoadMem(|w.ts| - 1, acc.ty, acc, mi, addr, offset);
    RelWorld(ctx, w, below, caught, m, s);
    RelHeights(ctx, w, below, caught, m, s);
    c := Step(ctx.host, ctx.p, Running(Cons(st, k), s));
    assert Steps(ctx.host, ctx.p, Running(Cons(st, k), s), 1) == Steps(ctx.host, ctx.p, c, 0);
    match ReadMem(m.world.Mem(mi), acc, Peek(m.stack, 0).bits + offset)
    case None =>
    case Some(v) =>
      SimAssign(ctx, w, below, caught, m, s, k, 1, acc.ty, LitX(v), v);
      assert c == Steps(ctx.host, ctx.p, Running(Cons(Assign(|w.ts| - 1, acc.ty, LitX(v)), k), s), 1);
  }

  lemma SimStore(ctx: Ctx, i: Instr, tb: seq<Type>, ts: seq<Type>, w: Writer, below: seq<Value>, caught: Caught,
      m: Machine, k: Code, s: Store, fuel: nat)
    returns (n: nat, c: Conf)
    requires i.Store?
    requires TypeInstr(ctx.cfg.env, i, ts).Live? && w.ts == tb + ts && |tb| == |below|
    requires Rel(ctx, w, below, caught, m, s)
    ensures var (code, ts1) := LowerInstr(ctx.cfg, i, w.ts);
            c == Steps(ctx.host, ctx.p, Running(Append(code, k), s), n)
            && Arrived(ctx, w, w.(ts := ts1), below, caught, EvalInstr(ctx.cfg.env, ctx.host, i, m), k, n, fuel, c)
  {
    var Store(acc, _, mi, offset) := i;
    Operand(ctx, w, below, caught, m, s, tb, ts, [I32, acc.ty], 0);
    Operand(ctx, w, below, caught, m, s, tb, ts, [I32, acc.ty], 1);
    var (v0, v1) := (StackVar(w.ts, 0), StackVar(w.ts, 1));
    var a := Peek(m.stack, 1);
    var st := StoreMem(acc, mi, VarX(v1), offset, VarX(v0));
    var trace := TraceCode(ctx.cfg.trace, true, VarX(v1));
    StoreCode(ctx, i, w, m);
    hide LowerInstr, EvalInstr, EvalX, WriteMem;
    AppendAssoc(trace, One(st), k);
    assert Append(One(st), k) == Cons(st, k);
    hide Append, TraceCode;
    var n1, s1 := SimTrace(ctx, w, below, caught, m, s, true, VarX(v1), a, Cons(st, k));
    EvalXStreams(s, s1.out, s1.file, VarX(v1));
    EvalXStreams(s, s1.out, s1.file, VarX(v0));
    n := n1 + 1;
    c := StoreStep(ctx, acc, mi, offset, VarX(v1), VarX(v0), w, below, caught, m.(log := m.log + [Stored(a.bits)]), k,
        s1);
    StepsAdd(ctx.host, ctx.p, Running(Append(Append(trace, One(st)), k), s), n1, 1);
  }

  lemma StoreCode(ctx: Ctx, i: Instr, w: Writer, m: Machine)
    requires i.Store?
    ensures var (v0, v1) := (StackVar(w.ts, 0), StackVar(w.ts, 1));
            LowerInstr(ctx.cfg, i, w.ts) ==
              (Append(TraceCode(ctx.cfg.trace, true, VarX(v1)),
                  One(StoreMem(i.acc, i.memidx, VarX(v1), i.offset, VarX(v0)))),
               DropN(w.ts, 2))
    ensures var a := Peek(m.stack, 1).bits;
            var m1 := m.(log := m.log + [Stored(a)]);
            EvalInstr(ctx.cfg.env, ctx.host, i, m) ==
              match WriteMem(m.world.Mem(i.memidx), i.acc, a + i.offset, Peek(m.stack, 0).bits)
              case None => Trap(m1)
              case Some(mem) => Next(m1.(stack := DropN(m.stack, 2), world := m.world.SetMem(i.memidx, mem)))
  {
    hide WriteMem;
    assert DropN(w.ts, 2) + [] == DropN(w.ts, 2);
  }

  lemma StoreStep(ctx: Ctx, acc: Access, mi: nat, offset: nat, addr: CExpr, e: CExpr, w: Writer, below: seq<Value>,
      caught: Caught, m: Machine, k: Code, s: Store)
    returns (c: Conf)
    requires Rel(ctx, w, below, caught, m, s) && |m.stack| >= 2
    requires EvalX(s, addr) == Some(Peek(m.stack, 1)) && EvalX(s, e) == Some(Peek(m.stack, 0))
    ensures c == Steps(ctx.host, ctx.p, Running(Cons(StoreMem(acc, mi, addr, offset, e), k), s), 1)
    ensures match WriteMem(m.world.Mem(mi), acc, Peek(m.stack, 1).bits + offset, Peek(m.stack, 0).bits)
            case None => c == Aborted(s)
            case Some(mem) =>
              c.Running? && c.code == k
              && Rel(ctx, w.(ts := DropN(w.ts, 2)), below, caught,
                  m.(stack := DropN(m.stack, 2), world := m.world.SetMem(mi, mem)), c.s)
  {
    hide WriteMem, EvalX;
    c := Step(ctx.host, ctx.p, Running(Cons(StoreMem(acc, mi, addr, offset, e), k), s));
    OneStep(ctx, Running(Cons(StoreMem(acc, mi, addr, offset, e), k), s), c);
    SimDrop(ctx, w, below, caught, m, s, 2);
  }

  // ----- calls and raised exceptions -----

  /** Unwinding from a translated instruction reaches the handler of the innermost open try. */
  lemma SimUnwind(ctx: Ctx, w: Writer, below: seq<Value>, caught: Caught, x: Exn, m: Machine, s: Store)
    returns (n: nat, c: Conf)
    requires |below| <= |w.ts| && ValsAt(w.ts[..|below|], below, s.slots) && DataRel(ctx, m, s)
    requires s.unwind == TopUnwind(w.tries) && TryVars(w.tries, ctx.hs, s.outer, s.bufs)
        && SavedOk(caught, ctx.cfg.rethrown, s.saved)
    requires s.exn == x && x.tag < |ctx.cfg.env.tags| && |x.args| == |ctx.cfg.env.tags[x.tag]|
    ensures c == Steps(ctx.host, ctx.p, Unwound(s), n)
    ensures RaiseRel(ctx, w, |w.tries|, below, caught, x, m, c)
  {
    assert w.tries[..|w.tries|] == w.tries;
    if w.tries == [] {
      n, c := 0, Escaped(s);
    } else {
      var j := |w.tries| - 1;
      var name := w.tries[j].name;
      var b := s.bufs[name];
      assert Unwound(s) == Running(b, s);
      if b == ctx.hs[j] {
        n, c := 0, Running(b, s);
      } else {
        n, c := 1, Running(b.tl, s);
        assert Steps(ctx.host, ctx.p, Running(b, s), 1) == Steps(ctx.host, ctx.p, Running(b.tl, s), 0);
      }
    }
  }

  lemma CallValues(ts: seq<Type>, below: seq<Value>, stack: seq<Value>, s: Store, p: nat, tys: seq<Type>,
      vs: seq<Value>)
    requires ValsAt(ts, below + stack, s.slots) && p <= |stack| && |vs| == |tys|
    ensures var s1 := SetSlots(s, SlotsFrom(|ts| - p, tys), vs);
            ValsAt(DropN(ts, p) + tys, below + (DropN(stack, p) + vs), s1.slots) && s1 == s.(slots := s1.slots)
  {
    var h := |ts| - p;
    ValsPrefix(ts, below + stack, s.slots, h);
    assert (below + stack)[..h] == below + DropN(stack, p);
    SetSlotsHold(ts[..h], below + DropN(stack, p), s, tys, vs);
    assert below + DropN(stack, p) + vs == below + (DropN(stack, p) + vs);
  }

  lemma CallReturned(ctx: Ctx, w: Writer, below: seq<Value>, caught: Caught, m: Machine, s: Store, p: nat,
      tys: seq<Type>, vs: seq<Value>, wd: World)
    requires Rel(ctx, w, below, caught, m, s) && p <= |m.stack| && |vs| == |tys|
    ensures Rel(ctx, w.(ts := DropN(w.ts, p) + tys), below, caught, m.(stack := DropN(m.stack, p) + vs, world := wd),
                SetSlots(s.(world := wd), SlotsFrom(|w.ts| - p, tys), vs))
  {
    CallValues(w.ts, below, m.stack, s.(world := wd), p, tys, vs);
  }

  lemma CallThrew(ctx: Ctx, w: Writer, below: seq<Value>, caught: Caught, m: Machine, s: Store, x: Exn, wd: World)
    returns (n: nat, c: Conf)
    requires Rel(ctx, w, below, caught, m, s)
    requires x.tag < |ctx.cfg.env.tags| && |x.args| == |ctx.cfg.env.tags[x.tag]|
    ensures c == Steps(ctx.host, ctx.p, Unwound(s.(world := wd, exn := x)), n)
    ensures RaiseRel(ctx, w, |w.tries|, below, caught, x, m.(world := wd), c)
  {
    var s1 := s.(world := wd, exn := x);
    ValsPrefix(w.ts, below + m.stack, s.slots, |below|);
    assert (below + m.stack)[..|below|] == below;
    n, c := SimUnwind(ctx, w, below, caught, x, m.(world := wd), s1);
  }

  lemma SimCallEnds(ctx: Ctx, r: HostResult, p: nat, tys: seq<Type>, w: Writer, below: seq<Value>, caught: Caught,
      m: Machine, k: Code, s: Store, fuel: nat)
    returns (n: nat, c: Conf)
    requires Rel(ctx, w, below, caught, m, s) && p <= |m.stack|
    requires r.Returned? ==> |r.vals| == |tys|
    requires r.Threw? ==> r.x.tag < |ctx.cfg.env.tags| && |r.x.args| == |ctx.cfg.env.tags[r.x.tag]|
    ensures c == Steps(ctx.host, ctx.p, CallEnds(r, SlotsFrom(|w.ts| - p, tys), k, s), n)
    ensures Arrived(ctx, w, w.(ts := DropN(w.ts, p) + tys), below, caught, AfterCall(r, p, m), k, n + 1, fuel, c)
  {
    match r
    case Returned(vs, wd) =>
      CallReturned(ctx, w, below, caught, m, s, p, tys, vs, wd);
      n, c := 0, Running(k, SetSlots(s.(world := wd), SlotsFrom(|w.ts| - p, tys), vs));
    case Threw(x, wd) =>
      n, c := CallThrew(ctx, w, below, caught, m, s, x, wd);
    case HostTrap(wd) =>
      n, c := 0, Aborted(s.(world := wd));
  }

  /** The call itself: the host gets the operands, then the run goes on as its result says. */
  lemma CallStep(ctx: Ctx, f: nat, w: Writer, below: seq<Value>, caught: Caught, m: Machine, k: Code, s: Store)
    requires f < |ctx.cfg.env.funcs| && |ctx.cfg.env.funcs[f].params| <= |m.stack|
    requires Rel(ctx, w, below, caught, m, s)
    ensures var sig := ctx.cfg.env.funcs[f];
            var p := |sig.params|;
            var dsts := SlotsFrom(|w.ts| - p, sig.results);
            Step(ctx.host, ctx.p, Running(Cons(CallFunc(f, TopSlots(w.ts, p), dsts), k), s))
                == CallEnds(ctx.host(f, TopN(m.stack, p), m.world), dsts, k, s)
  {
    TopSlotsHold(w.ts, below, m.stack, s, |ctx.cfg.env.funcs[f].params|);
    hide SlotsFrom, TopSlots, TopN, CallEnds, SlotValues;
  }

  lemma SimCallCore(ctx: Ctx, f: nat, w: Writer, below: seq<Value>, caught: Caught, m: Machine, k: Code, s: Store,
      fuel: nat)
    returns (n: nat, c: Conf)
    requires f < |ctx.cfg.env.funcs| && |ctx.cfg.env.funcs[f].params| <= |m.stack|
    requires Rel(ctx, w, below, caught, m, s) && HostOk(ctx.cfg.env, ctx.host)
    ensures var sig := ctx.cfg.env.funcs[f];
            var p := |sig.params|;
            c == Steps(ctx.host, ctx.p, Running(Cons(CallFunc(f, TopSlots(w.ts, p),
                SlotsFrom(|w.ts| - p, sig.results)), k), s), n)
            && Arrived(ctx, w, w.(ts := DropN(w.ts, p) + sig.results), below, caught,
                       AfterCall(ctx.host(f, TopN(m.stack, p), m.world), p, m), k, n, fuel, c)
  {
    hide Rel, Arrived, Steps, Step, CallEnds, AfterCall, SlotsFrom, TopSlots, TopN, DropN;
    var sig := ctx.cfg.env.funcs[f];
    var p := |sig.params|;
    CallStep(ctx, f, w, below, caught, m, k, s);
    var c0 := Running(Cons(CallFunc(f, TopSlots(w.ts, p), SlotsFrom(|w.ts| - p, sig.results)), k), s);
    var r := ctx.host(f, TopN(m.stack, p), m.world);
    var n1;
    n1, c := SimCallEnds(ctx, r, p, sig.results, w, below, caught, m, k, s, fuel);
    n := 1 + n1;
    OneStep(ctx, c0, CallEnds(r, SlotsFrom(|w.ts| - p, sig.results), k, s));
    StepsAdd(ctx.host, ctx.p, c0, 1, n1);
  }

  lemma SimCall(ctx: Ctx, f: nat, tb: seq<Type>, ts: seq<Type>, w: Writer, below: seq<Value>, caught: Caught,
      m: Machine, k: Code, s: Store, fuel: nat)
    returns (n: nat, c: Conf)
    requires f < |ctx.cfg.env.funcs| && EndsWith(ts, ctx.cfg.env.funcs[f].params) && w.ts == tb + ts && |tb| == |below|
    requires Rel(ctx, w, below, caught, m, s) && HostOk(ctx.cfg.env, ctx.host)
    ensures var (code, ts1) := LowerInstr(ctx.cfg, Call(f), w.ts);
            c == Steps(ctx.host, ctx.p, Running(Append(code, k), s), n)
            && Arrived(ctx, w, w.(ts := ts1), below, caught, EvalInstr(ctx.cfg.env, ctx.host, Call(f), m), k, n, fuel,
                c)
  {
    hide LowerInstr, EvalInstr, Rel, Arrived, Steps, HostOk, TypeInstr, SlotsFrom, TopSlots, TopN, DropN, ValsAt;
    var p := |ctx.cfg.env.funcs[f].params|;
    AppendOne(CallFunc(f, TopSlots(w.ts, p), SlotsFrom(|w.ts| - p, ctx.cfg.env.funcs[f].results)), k);
    CallCode(ctx.cfg, f, w.ts);
    CallEval(ctx.cfg.env, ctx.host, f, m);
    RelHeights(ctx, w, below, caught, m, s);
    n, c := SimCallCore(ctx, f, w, below, caught, m, k, s, fuel);
  }

  lemma AppendOne(st: Stmt, k: Code)
    ensures Append(One(st), k) == Cons(st, k)
  {}

  lemma RelHeights(ctx: Ctx, w: Writer, below: seq<Value>, caught: Caught, m: Machine, s: Store)
    requires Rel(ctx, w, below, caught, m, s)
    ensures |w.ts| == |below| + |m.stack|
  {}

  lemma CallCode(cfg: Config, f: nat, ts: seq<Type>)
    requires f < |cfg.env.funcs|
    ensures var sig := cfg.env.funcs[f];
            var p := |sig.params|;
            LowerInstr(cfg, Call(f), ts) == (One(CallFunc(f, TopSlots(ts, p), SlotsFrom(|ts| - p, sig.results))),
                DropN(ts, p) + sig.results)
  {
    hide InstrCode, After, Effect, SlotsFrom, TopSlots, TopN, DropN;
    CallIs(cfg, f, ts);
    CallAfter(cfg.env, f, ts);
  }

  lemma CallIs(cfg: Config, f: nat, ts: seq<Type>)
    ensures InstrCode(cfg, Call(f), ts) == One(CallStmt(cfg.env, f, ts))
  {
    hide StackVar, VarX, BinaryX, CompareX, TraceCode, AssignVar, Append, TypeAt, CallStmt, One, NewVar;
  }

  lemma CallAfter(env: Env, f: nat, ts: seq<Type>)
    requires f < |env.funcs|
    ensures After(env, Call(f), ts) == DropN(ts, |env.funcs[f].params|) + env.funcs[f].results
  {
    hide DropN, TypeAt;
  }

  lemma CallEval(env: Env, host: Host, f: nat, m: Machine)
    requires f < |env.funcs|
    ensures var p := |env.funcs[f].params|;
            EvalInstr(env, host, Call(f), m) == AfterCall(host(f, TopN(m.stack, p), m.world), p, m)
  {}

  lemma OneStep(ctx: Ctx, a: Conf, b: Conf)
    requires Step(ctx.host, ctx.p, a) == b
    ensures Steps(ctx.host, ctx.p, a, 1) == b
  {
    assert Steps(ctx.host, ctx.p, b, 0) == b;
  }

  lemma SimInstr(ctx: Ctx, i: Instr, tb: seq<Type>, ts: seq<Type>, w: Writer, below: seq<Value>, caught: Caught,
      m: Machine, k: Code, s: Store, fuel: nat)
    returns (n: nat, c: Conf)
    requires TypeInstr(ctx.cfg.env, i, ts).Live? && w.ts == tb + ts && |tb| == |below|
    requires Rel(ctx, w, below, caught, m, s) && HostOk(ctx.cfg.env, ctx.host)
    ensures var (code, ts1) := LowerInstr(ctx.cfg, i, w.ts);
            c == Steps(ctx.host, ctx.p, Running(Append(code, k), s), n)
            && Arrived(ctx, w, w.(ts := ts1), below, caught, EvalInstr(ctx.cfg.env, ctx.host, i, m), k, n, fuel, c)
  {
    if i.Call? {
      n, c := SimCall(ctx, i.func, tb, ts, w, below, caught, m, k, s, fuel);
    } else if i.Load? {
      n, c := SimLoad(ctx, i, tb, ts, w, below, caught, m, k, s, fuel);
    } else if i.Store? {
      n, c := SimStore(ctx, i, tb, ts, w, below, caught, m, k, s, fuel);
    } else if i.Drop? || i.Nop? || i.LocalSet? || i.LocalTee? || i.GlobalSet? {
      n, c := SimSet(ctx, i, tb, ts, w, below, caught, m, k, s, fuel);
    } else {
      n, c := SimValue(ctx, i, tb, ts, w, below, caught, m, k, s, fuel);
    }
  }

  // ----- branches -----

  /** The effect of a sequence of moves on the stack variables. */
  function Moved(slots: map<(int, Type), Value>, dst: int, to: seq<Type>, src: int, from: seq<Type>): map<(int, Type),
      Value>
    requires |to| == |from|
    requires forall i | 0 <= i < |from| :: (src + i, from[i]) in slots
    decreases |to|
  {
    if to == [] then slots
    else
      var slots1 := slots[(dst, to[0]) := slots[(src, from[0])]];
      assert forall i | 0 <= i < |from[1..]| :: (src + 1 + i, from[1..][i]) == (src + (i + 1), from[i + 1]);
      Moved(slots1, dst + 1, to[1..], src + 1, from[1..])
  }

  /** Sequential moves to lower heights equal one simultaneous copy, however the two ranges
      overlap and whatever the types, and write only the target heights. */
  lemma {:induction false} ParallelMove(slots: map<(int, Type), Value>, dst: int, to: seq<Type>, src: int,
      from: seq<Type>)
    requires dst < src && |to| == |from|
    requires forall i | 0 <= i < |from| :: (src + i, from[i]) in slots
    ensures var r := Moved(slots, dst, to, src, from);
            && (forall i | 0 <= i < |to| :: (dst + i, to[i]) in r && r[(dst + i, to[i])] == slots[(src + i, from[i])])
            && (forall h: int, t: Type | h < dst || dst + |to| <= h ::
                  ((h, t) in r <==> (h, t) in slots) && ((h, t) in slots ==> r[(h, t)] == slots[(h, t)]))
    decreases |to|
  {
    if to != [] {
      var slots1 := slots[(dst, to[0]) := slots[(src, from[0])]];
      forall i | 0 <= i < |from[1..]|
        ensures (src + 1 + i, from[1..][i]) in slots1 && slots1[(src + 1 + i, from[1..][i])]
            == slots[(src + (i + 1), from[i + 1])]
      {
        assert (src + 1 + i, from[1..][i]) == (src + (i + 1), from[i + 1]);
      }
      ParallelMove(slots1, dst + 1, to[1..], src + 1, from[1..]);
      var r := Moved(slots, dst, to, src, from);
      forall i | 0 <= i < |to|
        ensures (dst + i, to[i]) in r && r[(dst + i, to[i])] == slots[(src + i, from[i])]
      {
        if i > 0 { assert (dst + i, to[i]) == (dst + 1 + (i - 1), to[1..][i - 1]); }
        else { assert (dst, to[0]) in slots1; }
      }
    }
  }

  lemma {:induction false} RunMoves(ctx: Ctx, dst: int, to: seq<Type>, src: int, from: seq<Type>, k: Code, s: Store)
    requires |to| == |from|
    requires forall i | 0 <= i < |from| :: (src + i, from[i]) in s.slots
    ensures Steps(ctx.host, ctx.p, Running(Append(Moves(dst, to, src, from), k), s), |to|)
            == Running(k, s.(slots := Moved(s.slots, dst, to, src, from)))
    decreases |to|
  {
    if to != [] {
      var s1 := s.(slots := s.slots[(dst, to[0]) := s.slots[(src, from[0])]]);
      assert forall i | 0 <= i < |from[1..]| :: (src + 1 + i, from[1..][i]) == (src + (i + 1), from[i + 1]);
      RunMoves(ctx, dst + 1, to[1..], src + 1, from[1..], k, s1);
    }
  }
}

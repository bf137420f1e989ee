/** The writer itself: three stacks updated in place while code is written. A method returns None
    where an assertion of the source fails. Every method is proved to write the code, and to
    leave the stacks, that the functions of Lowering say, and to come to a failing assertion
    exactly where the analysis of StackTypes runs out of operands. */
module CWriter {
  import opened Ir
  import opened Wasm
  import opened Typing
  import opened StackTypes
  import opened CLang
  import opened Lowering
  import opened LoweringShape
  import opened LoweringBranch
  import opened LoweringScope
  import opened LoweringText
  import opened LoweringSound

  /** Case bodies in front of the rest of a switch. */
  function Prepend(cs: seq<Code>, rest: Cases): Cases
    decreases |cs|
  {
    if cs == [] then rest else Case(cs[0], Prepend(cs[1..], rest))
  }

  lemma {:induction false} PrependLast(cs: seq<Code>, c: Code, rest: Cases)
    ensures Prepend(cs + [c], rest) == Prepend(cs, Case(c, rest))
    decreases |cs|
  {
    if cs != [] {
      assert (cs + [c])[1..] == cs[1..] + [c];
      PrependLast(cs[1..], c, rest);
    } else {
      assert (cs + [c])[1..] == [];
    }
  }

  /** The moves not yet written after `i` of them. */
  lemma MovesFrom(dst: int, to: seq<Type>, src: int, from: seq<Type>, c: Code)
    requires to != [] && from != []
    ensures Append(c, Moves(dst, to, src, from)) == Append(Append(c, One(Assign(dst, to[0], SlotX(src, from[0])))),
        Moves(dst + 1, to[1..], src + 1, from[1..]))
  {
    AppendAssoc(c, One(Assign(dst, to[0], SlotX(src, from[0]))), Moves(dst + 1, to[1..], src + 1, from[1..]));
  }

  /** The label and try stacks are well formed: what the writer itself keeps, whatever code it
      is given. */
  ghost predicate ScopeOk(w: Writer) {
    && w.labels != []
    && forall i {:trigger w.labels[i]} | 0 <= i < |w.labels| ::
         w.labels[i].tryStackSize <= |w.tries| && (w.labels[i].kind == TryKindL ==>
             w.labels[i].tryStackSize < |w.tries|)
  }

  class CWriter {
    const cfg: Config
    var typeStack: seq<Type>
    var labelStack: seq<LabelEntry>
    var tryStack: seq<TryEntry>
    var funcIncludes: set<string>      // the tries named by a rethrow so far
    ghost var dead: bool
    ghost var sound: bool

    constructor (cfg: Config)
      ensures this.cfg == cfg && State() == Writer([], [], [], false, true) && funcIncludes == {}
    {
      this.cfg := cfg;
      typeStack, labelStack, tryStack, funcIncludes, dead, sound := [], [], [], {}, false, true;
    }

    ghost function State(): Writer
      reads this
    {
      Writer(typeStack, labelStack, tryStack, dead, sound)
    }

    // ----- the stacks -----

    /** The variable for the operand `k` places from the top, if there is one. */
    function Operand(k: nat): (r: Option<CExpr>)
      reads this
      ensures r == if k < |typeStack| then Some(VarX(StackVar(typeStack, k))) else None
    {
      if k < |typeStack| then Some(SlotX(|typeStack| - 1 - k, typeStack[|typeStack| - 1 - k])) else None
    }

    /** Cut the type stack back to the height at which a block began; its state then was `w0`. */
    method ResetTypeStack(mark: nat, ghost w0: Writer) returns (r: Option<()>)
      requires mark == |w0.ts|
      modifies this`typeStack, this`dead, this`sound
      ensures r.Some? <==> mark <= |old(typeStack)|
      ensures r.Some? ==> State() == ResetTs(old(State()), w0, [])
    {
      if mark > |typeStack| { return None; }
      sound, dead := sound && (w0.dead || w0.ts <= typeStack), w0.dead;
      typeStack := typeStack[..mark];
      assert typeStack + [] == typeStack;
      r := Some(());
    }

    method PushTypes(ts: seq<Type>)
      modifies this`typeStack
      ensures typeStack == old(typeStack) + ts
    {
      typeStack := typeStack + ts;
    }

    method DropTypes(count: nat)
      requires count <= |typeStack|
      modifies this`typeStack
      ensures typeStack == DropN(old(typeStack), count)
    {
      typeStack := typeStack[..|typeStack| - count];
    }

    method OpenLabel(kind: LabelKind, name: string, sig: FuncType)
      modifies this`labelStack
      ensures State() == PushLabel(old(State()), Frame(name, if kind == LoopKind then sig.params else sig.results),
          kind)
    {
      var f := Frame(name, if kind == LoopKind then sig.params else sig.results);
      labelStack := labelStack + [LabelEntry(f, kind, |typeStack|, |tryStack|, false)];
    }

    method PopLabel()
      requires labelStack != []
      modifies this`labelStack
      ensures labelStack == DropN(old(labelStack), 1)
    {
      labelStack := labelStack[..|labelStack| - 1];
    }

    /** The entry a branch names; marks it when asked to. */
    method Find(v: Var, markUsed: bool) returns (i: nat)
      requires labelStack != [] && (v.Index? ==> v.depth + 1 == |labelStack|)
      modifies this`labelStack
      ensures i == FindLabel(old(labelStack), v) && i < |labelStack|
      ensures State() == if markUsed then MarkLabel(old(State()), i) else old(State())
    {
      match v {
        case Index(depth) =>
          assert depth + 1 == |labelStack|;
          i := 0;
        case Name(name) =>
          i := |labelStack| - 1;
          assert labelStack[..i + 1] == labelStack;
          while i > 0 && labelStack[i].frame.name != name
            invariant i < |labelStack|
            invariant FindNamed(labelStack, name) == FindNamed(labelStack[..i + 1], name)
            decreases i
          {
            assert labelStack[..i + 1][..i] == labelStack[..i];
            i := i - 1;
          }
      }
      if markUsed { labelStack := labelStack[i := labelStack[i].(used := true)]; }
    }

    /** The label's declaration, if something jumps to it. */
    method WriteLabelDecl(l: CLabel) returns (c: Code)
      requires labelStack != []
      ensures c == LabelDecl(State(), l)
    {
      c := if labelStack[|labelStack| - 1].used then One(LabelHere(l, true)) else Nil;
    }

    // ----- branches -----

    /** The moves of the top `|sig|` operands down to the label's base. */
    method WriteMoves(base: nat, sig: seq<Type>) returns (c: Code)
      requires base + |sig| <= |typeStack|
      ensures c == BranchMoves(typeStack, base, sig)
    {
      var amount := |sig|;
      var src := |typeStack| - amount;
      var offset := src - base;
      c := Nil;
      if offset != 0 {
        ghost var from := TopN(typeStack, amount);
        var i := 0;
        while i < amount
          invariant 0 <= i <= amount
          invariant Moves(base, sig, src, from) == Append(c, Moves(base + i, sig[i..], src + i, from[i..]))
        {
          var dst := StackVar(typeStack, amount - i - 1 + offset);
          var (h, t) := StackVar(typeStack, amount - i - 1);
          MovesFrom(base + i, sig[i..], src + i, from[i..], c);
          assert sig[i..][1..] == sig[i + 1..] && from[i..][1..] == from[i + 1..];
          c := Append(c, One(Assign(dst.0, sig[i], SlotX(h, t))));
          i := i + 1;
        }
        AppendNil(c);
      }
    }

    method WriteUnwindTryCatchStack(tryStackSize: nat) returns (c: Code)
      requires tryStackSize <= |tryStack|
      ensures c == UnwindCode(tryStack, tryStackSize)
    {
      if tryStackSize != |tryStack| { c := One(UnwindOuter(tryStack[tryStackSize].name)); } else { c := Nil; }
    }

    /** A branch fails if its label takes operands that are not there above the label's height. */
    method WriteGotoLabel(v: Var) returns (r: Option<Code>)
      requires ScopeOk(State()) && Resolve(Frames(labelStack), v).Some?
      modifies this`labelStack
      ensures r.Some? <==> BranchFits(MarksOf(old(labelStack)), v, |typeStack|)
      ensures r.Some? ==> (r.value, State()) == LowerGoto(v, old(State()))
    {
      hide Moves;
      ghost var w := State();
      LabelFound(w, v);
      var i := Find(v, true);
      var l := labelStack[i];
      assert l.frame == w.labels[i].frame && l.typeStackSize == w.labels[i].typeStackSize
          && l.tryStackSize == w.labels[i].tryStackSize;
      var moves := Nil;
      if l.frame.sig != [] {
        if |typeStack| < l.typeStackSize || |typeStack| < |l.frame.sig|
            || |typeStack| - |l.frame.sig| < l.typeStackSize { return None; }
        moves := WriteMoves(l.typeStackSize, l.frame.sig);
      } else {
        NoMoves(l.typeStackSize, |typeStack|, TopN(typeStack, 0));
      }
      var unwind := WriteUnwindTryCatchStack(l.tryStackSize);
      r := Some(Append(moves, Append(unwind, One(Goto(GotoTarget(v))))));
    }

    /** The loop over the targets of a switch, and its default. */
    method WriteBrTable(vs: seq<Var>, d: Var) returns (r: Option<Cases>)
      requires ScopeOk(State()) && Resolve(Frames(labelStack), d).Some?
          && forall v | v in vs :: Resolve(Frames(labelStack), v).Some?
      modifies this`labelStack
      ensures r.Some? <==>
          BranchFits(MarksOf(old(labelStack)), d, |typeStack|)
              && forall v | v in vs :: BranchFits(MarksOf(old(labelStack)), v, |typeStack|)
      ensures r.Some? ==> (r.value, State()) == LowerCases(vs, d, old(State()))
    {
      hide Resolve, BranchFits, ScopeOk, LowerGoto;
      ghost var w := State();
      var codes: seq<Code> := [];
      var i := 0;
      while i < |vs|
        invariant 0 <= i <= |vs|
        invariant ScopeOk(State()) && Frames(labelStack) == Frames(w.labels) && MarksOf(labelStack) == MarksOf(w.labels)
        invariant forall j | 0 <= j < i :: BranchFits(MarksOf(w.labels), vs[j], |typeStack|)
        invariant LowerCases(vs, d, w) == (Prepend(codes, LowerCases(vs[i..], d, State()).0),
            LowerCases(vs[i..], d, State()).1)
      {
        ghost var w1 := State();
        var c :- WriteGotoLabel(vs[i]);
        GotoKeeps(w1, vs[i]);
        assert vs[i..][1..] == vs[i + 1..];
        PrependLast(codes, c, LowerCases(vs[i + 1..], d, State()).0);
        codes := codes + [c];
        i := i + 1;
      }
      var c :- WriteGotoLabel(d);
      var cases := MakeCases(codes, c);
      r := Some(cases);
    }

    // ----- instructions -----

    method WriteInstr(i: Instr) returns (r: Option<Code>)
      modifies this`typeStack
      ensures r.Some? <==> Effect(cfg.env, i, old(typeStack)).0 <= |old(typeStack)|
      ensures r.Some? ==> (r.value, typeStack) == LowerInstr(cfg, i, old(typeStack))
    {
      hide BinaryX, CompareX, TopSlots, SlotsFrom;
      DropNone(typeStack);
      match i {
        case Const(v) =>
          PushTypes([v.ty]);
          r := Some(AssignVar(StackVar(typeStack, 0), LitX(v)));
        case Binary(ty, op) =>
          var x1 :- Operand(1);
          var x0 := VarX(StackVar(typeStack, 0));
          if op == Shl || op == ShrU || op == ShrS {
            r := Some(AssignVar(StackVar(typeStack, 1), BinaryX(ty, op, x1, x0)));
            DropTypes(1);
          } else {
            r := Some(AssignVar((|typeStack| - 2, ty), BinaryX(ty, op, x1, x0)));
            DropTypes(2);
            PushTypes([ty]);
          }
        case Compare(ty, op) =>
          var x1 :- Operand(1);
          var x0 := VarX(StackVar(typeStack, 0));
          r := Some(AssignVar((|typeStack| - 2, I32), CompareX(ty, op, x1, x0)));
          DropTypes(2);
          PushTypes([I32]);
        case Eqz(_) =>
          var x0 :- Operand(0);
          r := Some(AssignVar((|typeStack| - 1, I32), NotX(x0)));
          DropTypes(1);
          PushTypes([I32]);
        case Drop =>
          if |typeStack| < 1 { return None; }
          DropTypes(1);
          r := Some(Nil);
        case Select =>
          var x2 :- Operand(2);
          var x0, x1 := VarX(StackVar(typeStack, 0)), VarX(StackVar(typeStack, 1));
          var t := typeStack[|typeStack| - 2];
          r := Some(AssignVar(StackVar(typeStack, 2), CondX(x0, x2, x1)));
          DropTypes(3);
          PushTypes([t]);
        case Nop =>
          r := Some(Nil);
        case LocalGet(x) =>
          PushTypes([TypeAt(cfg.env.locals, x)]);
          r := Some(AssignVar(StackVar(typeStack, 0), LocalX(x)));
        case LocalSet(x) =>
          var x0 :- Operand(0);
          r := Some(One(SetLocal(x, x0)));
          DropTypes(1);
        case LocalTee(x) =>
          var x0 :- Operand(0);
          r := Some(One(SetLocal(x, x0)));
        case GlobalGet(x) =>
          PushTypes([TypeAt(cfg.env.globals, x)]);
          r := Some(AssignVar(StackVar(typeStack, 0), GlobalX(x)));
        case GlobalSet(x) =>
          var x0 :- Operand(0);
          r := Some(One(SetGlobal(x, x0)));
          DropTypes(1);
        case Load(acc, _, k, offset) =>
          var x0 :- Operand(0);
          var trace := WriteTrace(false, x0);
          r := Some(Append(trace, One(LoadMem(|typeStack| - 1, acc.ty, acc, k, x0, offset))));
          DropTypes(1);
          PushTypes([acc.ty]);
        case Store(acc, _, k, offset) =>
          var x1 :- Operand(1);
          var x0 := VarX(StackVar(typeStack, 0));
          var trace := WriteTrace(true, x1);
          r := Some(Append(trace, One(StoreMem(acc, k, x1, offset, x0))));
          DropTypes(2);
        case Call(f) =>
          r := WriteCall(f);
      }
    }

    method WriteTrace(store: bool, addr: CExpr) returns (c: Code)
      ensures c == TraceCode(cfg.trace, store, addr)
    {
      c := Nil;
      if cfg.trace {
        c := One(Print(LogFile, store, addr));
        c := Cons(Print(Stdout, store, addr), c);
      }
    }

    method WriteCall(f: nat) returns (r: Option<Code>)
      modifies this`typeStack
      ensures r.Some? <==> |SigOf(cfg.env, f).params| <= |old(typeStack)|
      ensures r.Some? ==> r.value == One(CallStmt(cfg.env, f, old(typeStack)))
      ensures r.Some? ==> typeStack == DropN(old(typeStack), |SigOf(cfg.env, f).params|) + SigOf(cfg.env, f).results
    {
      var sig := SigOf(cfg.env, f);
      var n := |sig.params|;
      if |typeStack| < n { return None; }
      var base := |typeStack| - n;
      r := Some(One(CallFunc(f, TopSlots(typeStack, n), SlotsFrom(base, sig.results))));
      DropTypes(n);
      PushTypes(sig.results);
    }

    method WriteThrow() returns (c: Code)
      modifies this`tryStack
      ensures (c, State()) == LowerThrow(old(State()))
    {
      if tryStack == [] {
        c := One(RtThrow);
      } else {
        var top := |tryStack| - 1;
        c := One(Goto(CatchLabel(tryStack[top].name)));
        tryStack := tryStack[top := tryStack[top].(used := true)];
      }
    }

    /** The loop over an expression list, which stops at the first unconditional branch, but goes
        on behind a throw. */
    method WriteExprList(es: seq<Expr>) returns (r: Option<Code>)
      requires ScopeOk(State()) && Scoped(es, Frames(labelStack))
      modifies this
      ensures r.Some? <==> StackList(cfg.env, false, es, MarksOf(old(labelStack)), old(typeStack)).Some?
      ensures r.Some? ==> (r.value, State()) == LowerList(cfg, es, old(State()))
      ensures r.Some? ==> funcIncludes == old(funcIncludes) + Rethrown(es)
      decreases es, 0
    {
      hide LowerList, LowerExpr, StackList, StackExpr, Scoped, ScopedExpr, ScopeOk, Grown, Append, Rethrown, RethrownBy;
      ghost var w := State();
      ghost var ms := MarksOf(labelStack);
      var c := Nil;
      var i := 0;
      assert es[0..] == es;
      NilFirst(LowerList(cfg, es, w).0);
      while i < |es|
        invariant 0 <= i <= |es|
        invariant ScopeOk(State()) && Scoped(es[i..], Frames(labelStack)) && MarksOf(labelStack) == ms
        invariant StackList(cfg.env, false, es[i..], ms, typeStack) == StackList(cfg.env, false, es, ms, w.ts)
        invariant funcIncludes + Rethrown(es[i..]) == old(funcIncludes) + Rethrown(es)
        invariant LowerList(cfg, es, w) == (Append(c, LowerList(cfg, es[i..], State()).0),
            LowerList(cfg, es[i..], State()).1)
      {
        ghost var w1 := State();
        ListUnfold(cfg, es[i..], w1);
        assert es[i..][1..] == es[i + 1..];
        var d :- WriteExpr(es[i]);
        if es[i].Br? || es[i].BrTable? || es[i].Return? || es[i].Unreachable? { return Some(Append(c, d)); }
        AppendAssoc(c, d, LowerList(cfg, es[i + 1..], State()).0);
        c := Append(c, d);
        i := i + 1;
      }
      assert es[i..] == [];
      ListEmpty(cfg, State(), c, ms);
      r := Some(c);
    }

    method WriteExpr(e: Expr) returns (r: Option<Code>)
      requires ScopeOk(State()) && ScopedExpr(e, Frames(labelStack))
      modifies this
      ensures r.Some? <==> StackExpr(cfg.env, false, e, MarksOf(old(labelStack)), old(typeStack)).Some?
      ensures r.Some? ==> (r.value, State()) == LowerExpr(cfg, e, old(State()))
      ensures r.Some? ==> funcIncludes == old(funcIncludes) + RethrownBy(e)
      decreases e, 3
    {
      hide LowerList, LowerBlock, LowerLoop, LowerIf, LowerTry, LowerGoto, LowerCases, LowerThrow, LowerInstr, After,
          Effect, StackList, StackCatches, StackBlock, BranchFits, Resolve, Scoped, ScopedCatches, Rethrown, RethrownIn;
      match e {
        case Plain(i) =>
          r := WriteInstr(i);
        case Br(v) =>
          r := WriteGotoLabel(v);
        case BrIf(v) =>
          var x :- Operand(0);
          DropTypes(1);
          var c :- WriteGotoLabel(v);
          r := Some(One(IfElse(x, c, Nil)));
        case BrTable(vs, d) =>
          var x :- Operand(0);
          DropTypes(1);
          var cases :- WriteBrTable(vs, d);
          r := Some(One(Switch(x, cases)));
        case Return =>
          ReturnResolves(State());
          r := WriteGotoLabel(Index(|labelStack| - 1));
        case Unreachable =>
          r := Some(One(Abort));
        case Throw(t) =>
          r := WriteThrowExpr(t);
        case Rethrow(v) =>
          funcIncludes := funcIncludes + {v.name};
          var c := WriteThrow();
          dead := true;
          r := Some(Cons(ReloadExn(v.name), c));
        case Block(l, d, body) =>
          r := WriteBlock(l, d, body);
        case Loop(_, _, _) =>
          r := WriteLoop(e);
        case If(_, _, _, _) =>
          r := WriteIf(e);
        case Try(l, d, body, kind, _, _) =>
          if kind == PlainTry { r := WriteBlock(l, d, body); }
          else if kind == CatchTry { r := WriteTryCatch(e); }
          else { r := WriteTryDelegate(e); }
      }
    }

    /** The exception is loaded with the tag's operands and thrown. */
    method WriteThrowExpr(t: nat) returns (r: Option<Code>)
      modifies this`tryStack, this`dead
      ensures r.Some? <==> |TagOf(cfg.env, t)| <= |typeStack|
      ensures r.Some? ==> (r.value, State()) == LowerExpr(cfg, Throw(t), old(State()))
    {
      var n := |TagOf(cfg.env, t)|;
      if n > |typeStack| { return None; }
      var load := LoadExn(t, TopSlots(typeStack, n));
      var c := WriteThrow();
      dead := true;
      r := Some(Cons(load, c));
    }

    // ----- blocks -----

    /** The start of every block: its operands are taken off, its label opened, and they are
        put back as the body's stack. */
    method OpenBlock(kind: LabelKind, name: string, sig: FuncType) returns (mark: Option<nat>)
      modifies this`typeStack, this`labelStack
      ensures mark.Some? <==> |sig.params| <= |old(typeStack)|
      ensures var f := Frame(name, if kind == LoopKind then sig.params else sig.results);
              var w0 := old(State()).(ts := DropN(old(typeStack), |sig.params|));
              mark.Some? ==> mark.value == |w0.ts| && State() == Enter(w0, f, kind, sig.params)
    {
      if |sig.params| > |typeStack| { return None; }
      DropTypes(|sig.params|);
      mark := Some(|typeStack|);
      OpenLabel(kind, name, sig);
      PushTypes(sig.params);
    }

    /** The end of every block: its label's declaration, its results in place of its stack. */
    method CloseBlock(mark: nat, l: CLabel, results: seq<Type>, ghost w0: Writer) returns (decl: Option<Code>)
      requires mark == |w0.ts| && labelStack != []
      modifies this`typeStack, this`labelStack, this`dead, this`sound
      ensures decl.Some? <==> mark <= |old(typeStack)|
      ensures decl.Some? ==> decl.value == LabelDecl(old(State()), l) && State() == PopBlock(old(State()), w0, results)
    {
      ghost var w := State();
      var _ :- ResetTypeStack(mark, w0);
      var c := WriteLabelDecl(l);
      PopLabel();
      PushTypes(results);
      decl := Some(c);
    }

    method WriteBlock(l: string, d: BlockDecl, body: seq<Expr>) returns (r: Option<Code>)
      requires ScopeOk(State()) && Scoped(body, Frames(labelStack) + [Frame(l, d.sig.results)])
      modifies this
      ensures r.Some? <==>
          StackBlock(cfg.env, false, Frame(l, d.sig.results), body, d.sig, MarksOf(old(labelStack)),
              old(typeStack)).Some?
      ensures r.Some? ==> (r.value, State()) == LowerBlock(cfg, l, d, body, old(State()))
      ensures r.Some? ==> funcIncludes == old(funcIncludes) + Rethrown(body)
      decreases body, 1
    {
      hide PopBlock, LabelDecl, Rethrown, LowerList, StackList, Scoped, ScopeOk, Grown;
      ghost var w := State();
      ghost var w0 := w.(ts := DropN(typeStack, |d.sig.params|));
      var mark :- OpenBlock(BlockKind, l, d.sig);
      BodyStarts(w, w0, Frame(l, d.sig.results), BlockKind, d.sig.params, State());
      ghost var w1 := State();
      var c :- WriteExprList(body);
      BodyEnds(cfg, body, w1, State());
      var decl :- CloseBlock(mark, UserLabel(l), d.sig.results, w0);
      r := Some(Append(c, decl));
    }

    method WriteLoop(e: Expr) returns (r: Option<Code>)
      requires e.Loop? && ScopeOk(State()) && ScopedExpr(e, Frames(labelStack))
      modifies this
      ensures r.Some? <==> StackExpr(cfg.env, false, e, MarksOf(old(labelStack)), old(typeStack)).Some?
      ensures r.Some? ==> (r.value, State()) == LowerLoop(cfg, e, old(State()))
      ensures r.Some? ==> funcIncludes == old(funcIncludes) + RethrownBy(e)
      decreases e, 2
    {
      hide PopBlock, LowerList, StackList, Scoped, ScopeOk, Grown;
      r := Some(Nil);
      if e.body != [] {
        hide Rethrown;
        var sig := e.decl.sig;
        ghost var w := State();
        ghost var w0 := w.(ts := DropN(typeStack, |sig.params|));
        var mark :- OpenBlock(LoopKind, e.name, sig);
        BodyStarts(w, w0, Frame(e.name, sig.params), LoopKind, sig.params, State());
        ghost var w1 := State();
        var c :- WriteExprList(e.body);
        BodyEnds(cfg, e.body, w1, State());
        var decl :- CloseBlock(mark, UserLabel(e.name), sig.results, w0);      // a loop's label is at its start
        r := Some(Cons(LabelHere(UserLabel(e.name), false), c));
      }
    }

    method WriteIf(e: Expr) returns (r: Option<Code>)
      requires e.If? && ScopeOk(State()) && ScopedExpr(e, Frames(labelStack))
      modifies this
      ensures r.Some? <==> StackExpr(cfg.env, false, e, MarksOf(old(labelStack)), old(typeStack)).Some?
      ensures r.Some? ==> (r.value, State()) == LowerIf(cfg, e, old(State()))
      ensures r.Some? ==> funcIncludes == old(funcIncludes) + RethrownBy(e)
      decreases e, 2
    {
      hide PopBlock, ResetTs, LabelDecl, StackVar, VarX, Rethrown, RethrownIn, Append, LowerList, StackList, StackExpr,
          Reset, Scoped, ScopeOk, Grown, ShapeOf, MarksOf, Frames, Join;
      var (l, sig) := (e.name, e.decl.sig);
      ghost var w := State();
      IfReads(cfg.env, e, MarksOf(w.labels), w.ts);
      var x :- Operand(0);
      DropTypes(1);
      ghost var w0 := w.(ts := DropN(typeStack, |sig.params|));
      var mark :- OpenBlock(IfKind, l, sig);
      ghost var w1 := State();
      BodyStarts(w, w0, Frame(l, sig.results), IfKind, sig.params, w1);
      ResetReads(w0);
      var c1 :- WriteExprList(e.thn);
      ghost var w2 := State();
      BodyEnds(cfg, e.thn, w1, w2);
      var c2 :- WriteElse(e.els, mark, sig, w0);
      ghost var w3 := State();
      var decl :- CloseBlock(mark, UserLabel(l), sig.results, w0);
      sound := Braced(State(), [c1, c2]).sound;
      r := Some(Cons(IfElse(x, c1, c2), decl));
    }

    /** The second arm, from the height of the first; nothing when it is empty. */
    method WriteElse(els: seq<Expr>, mark: nat, sig: FuncType, ghost w0: Writer) returns (r: Option<Code>)
      requires mark == |w0.ts| && ScopeOk(State()) && Scoped(els, Frames(labelStack))
      modifies this
      ensures var w2 := ResetTs(old(State()), w0, sig.params);
              && (r.Some? <==>
                  els == [] || (mark <= |old(typeStack)|
                      && StackList(cfg.env, false, els, MarksOf(old(labelStack)), w2.ts).Some?))
              && (r.Some? ==> (r.value, State()) == if els == [] then (Nil, old(State())) else LowerList(cfg, els, w2))
      ensures r.Some? ==> ScopeOk(State()) && Frames(labelStack) == Frames(old(labelStack))
      ensures r.Some? ==> els == [] || StackList(cfg.env, false, els, MarksOf(old(labelStack)),
          ResetTs(old(State()), w0, sig.params).ts) == Some(typeStack)
      ensures r.Some? ==> funcIncludes == old(funcIncludes) + Rethrown(els)
      decreases els, 1
    {
      hide LowerList, StackList, Scoped, ScopeOk, Grown;
      r := Some(Nil);
      if els != [] {
        hide Rethrown;
        ghost var w := State();
        var _ :- ResetTypeStack(mark, w0);
        PushTypes(sig.params);
        ghost var w2 := State();
        ResetMore(w, w0, sig.params);
        GrownReset(w, w0, sig.params);
        ScopeGrown(w, w2);
        r := WriteExprList(els);
        if r.Some? { BodyEnds(cfg, els, w2, State()); }
      }
    }

    // ----- tries -----

    /** The try's body; afterwards its label stands for its catch part. */
    method BeginTry(e: Expr) returns (r: Option<(nat, Code, Code)>)
      requires e.Try? && ScopeOk(State()) && Scoped(e.body, Frames(labelStack) + [Frame(e.name, e.decl.sig.results)])
      modifies this
      ensures var sig := e.decl.sig;
              var w0 := old(State()).(ts := DropN(old(typeStack), |sig.params|));
              var ts := StackList(cfg.env, false, e.body,
                  MarksOf(old(labelStack)) + [Mark(Frame(e.name, sig.results), |w0.ts|)], w0.ts + sig.params);
              && (r.Some? <==> |sig.params| <= |old(typeStack)| && ts.Some? && |w0.ts| <= |ts.value|)
              && (r.Some? ==>
                    var w1 := EnterTry(w0, Frame(e.name, sig.results), sig.params);
                    var (c1, w2) := LowerList(cfg, e.body, w1);
                    && r.value == (|w0.ts|, c1, Landing(w2, e.name)) && State() == BeginCatches(w2, w0)
                    && Grown(w1, w2) && w2.ts == ts.value)
      ensures r.Some? ==> funcIncludes == old(funcIncludes) + Rethrown(e.body)
      decreases e, 1
    {
      hide Rethrown, LowerList, StackList, Scoped, ScopeOk, Grown;
      var (l, sig) := (e.name, e.decl.sig);
      ghost var w := State();
      ghost var w0 := w.(ts := DropN(typeStack, |sig.params|));
      if |sig.params| > |typeStack| { return None; }
      DropTypes(|sig.params|);
      var mark := |typeStack|;
      OpenLabel(TryKindL, l, sig);
      PushTypes(sig.params);
      tryStack := tryStack + [TryEntry(l, false)];
      ghost var w1 := State();
      TryStarts(w, w0, Frame(l, sig.results), sig.params, w1);
      var body :- WriteExprList(e.body);
      ghost var w2 := State();
      BodyEnds(cfg, e.body, w1, w2);
      TryStays(w1, w2);
      var _ :- ResetTypeStack(mark, w0);
      var top := |labelStack| - 1;
      labelStack := labelStack[top := labelStack[top].(kind := CatchKind)];
      var landing := if tryStack[|tryStack| - 1].used then One(LabelHere(CatchLabel(l), true)) else Nil;
      r := Some((mark, body, landing));
    }

    method WriteTryCatch(e: Expr) returns (r: Option<Code>)
      requires e.Try? && e.kind == CatchTry && ScopeOk(State()) && ScopedExpr(e, Frames(labelStack))
      modifies this
      ensures r.Some? <==> StackExpr(cfg.env, false, e, MarksOf(old(labelStack)), old(typeStack)).Some?
      ensures r.Some? ==> (r.value, State()) == LowerTry(cfg, e, old(State()))
      ensures r.Some? ==> funcIncludes == old(funcIncludes) + RethrownBy(e)
      decreases e, 2
    {
      hide Rethrown, RethrownIn, Append, LowerList, LowerCatches, StackList, StackCatches, StackExpr, Scoped,
          ScopedCatches, ScopeOk, Grown, BeginCatches, ResetTs, PopBlock, LabelDecl, ShapeOf, Landing, Reset;
      ghost var w := State();
      var (l, sig) := (e.name, e.decl.sig);
      ghost var w0 := w.(ts := DropN(w.ts, |sig.params|));
      TryReads(cfg.env, e, MarksOf(w.labels), w.ts);
      ResetReads(w0);
      var begun :- BeginTry(e);
      var (mark, c1, landing) := begun;
      ghost var w2 := LowerList(cfg, e.body, EnterTry(w0, Frame(l, sig.results), sig.params)).1;
      CatchStarts(w, w0, w2, Frame(l, sig.results), sig.params);
      tryStack := tryStack[..|tryStack| - 1];
      ghost var wh := State();
      var save := SaveCode(cfg, l);
      var c2 :- WriteCatches(e.catches, mark, w0);
      CatchEnds(cfg, e.catches, w0, wh, State());
      var decl :- CloseBlock(mark, UserLabel(l), sig.results, w0);
      sound := Braced(State(), [c2]).sound;
      r := Some(TryCode(l, c1, Append(landing, Cons(UnwindOuter(l), Append(save, c2))), decl));
    }

    /** The loop over the clauses; the first catch_all ends it. */
    method WriteCatches(cs: seq<Catch>, mark: nat, ghost w0: Writer) returns (r: Option<Code>)
      requires cs != [] && mark == |w0.ts| && ScopeOk(State()) && ScopedCatches(cs, Frames(labelStack))
      modifies this
      ensures r.Some? <==> StackCatches(cfg.env, false, cs, MarksOf(old(labelStack)), w0.ts, old(typeStack)).Some?
      ensures r.Some? ==> (r.value, State()) == LowerCatches(cfg, cs, w0, old(State()))
      ensures r.Some? ==> funcIncludes == old(funcIncludes) + RethrownIn(cs)
      decreases cs, 0
    {
      hide LowerList, LowerCatches, LowerThrow, StackList, StackCatches, Scoped, ScopedCatches, ScopeOk, Grown,
          ResetTs, ClauseChain, ChainSound, Rethrown, RethrownIn, UnpackCode;
      ghost var w := State();
      ghost var ms := MarksOf(labelStack);
      var clauses: seq<Clause> := [];
      var i := 0;
      assert cs[0..] == cs;
      ChainedFirst(cfg, cs, w0, w);
      while i < |cs|
        invariant 0 <= i <= |cs|
        invariant ScopeOk(State()) && ScopedCatches(cs[i..], Frames(labelStack)) && MarksOf(labelStack) == ms
        invariant StackCatches(cfg.env, false, cs[i..], ms, w0.ts, typeStack)
            == StackCatches(cfg.env, false, cs, ms, w0.ts, w.ts)
        invariant ChainedTo(cfg, cs, w0, w, clauses, i, State())
        invariant funcIncludes + RethrownIn(cs[i..]) == old(funcIncludes) + RethrownIn(cs)
      {
        ghost var w1 := State();
        CatchesReads(cfg, cs[i..], w0, w1);
        assert cs[i..][1..] == cs[i + 1..];
        var _ :- ResetTypeStack(mark, w0);
        if cs[i].tag == None {
          ClauseStarts(w1, w0, [], State());
          var last :- WriteExprList(cs[i].exprs);
          var chain := MakeChain(clauses, last);
          sound := sound && ChainSound(clauses, last);
          return Some(chain);
        }
        var t := cs[i].tag.value;
        var tys := TagOf(cfg.env, t);
        PushTypes(tys);
        ResetMore(w1, w0, tys);
        ClauseStarts(w1, w0, tys, State());
        ghost var w2 := State();
        var c1 :- WriteExprList(cs[i].exprs);
        BodyEnds(cfg, cs[i].exprs, w2, State());
        var clause := Clause(t, cs[i].exprs, UnpackCode(mark, tys), c1);
        ChainStep(cfg, cs, w0, w, clauses, i, w1, clause, State());
        clauses := clauses + [clause];
        i := i + 1;
      }
      CatchesDone(cfg, cs, w0, State(), ms);
      var last := WriteThrow();
      var chain := MakeChain(clauses, last);
      sound := sound && ChainSound(clauses, last);
      r := Some(chain);
    }

    method WriteTryDelegate(e: Expr) returns (r: Option<Code>)
      requires e.Try? && e.kind == DelegateTry && ScopeOk(State()) && ScopedExpr(e, Frames(labelStack))
      modifies this
      ensures r.Some? <==> StackExpr(cfg.env, false, e, MarksOf(old(labelStack)), old(typeStack)).Some?
      ensures r.Some? ==> (r.value, State()) == LowerTry(cfg, e, old(State()))
      ensures r.Some? ==> funcIncludes == old(funcIncludes) + RethrownBy(e)
      decreases e, 2
    {
      hide Rethrown, RethrownIn, Append, LowerList, LowerDelegate, StackList, StackExpr, Scoped, ScopeOk, Grown,
          BeginCatches, ResetTs, PopBlock, Landing, Reset, Resolve;
      ghost var w := State();
      var (l, sig) := (e.name, e.decl.sig);
      ghost var w0 := w.(ts := DropN(w.ts, |sig.params|));
      TryReads(cfg.env, e, MarksOf(w.labels), w.ts);
      ResetReads(w0);
      MarkFrames(w.labels);
      var begun :- BeginTry(e);
      var (mark, c1, landing) := begun;
      ghost var w2 := LowerList(cfg, e.body, EnterTry(w0, Frame(l, sig.results), sig.params)).1;
      DelegateStarts(w, w0, w2, Frame(l, sig.results), sig.params);
      var c2 := WriteDelegate(e.delegate);
      tryStack := tryStack[..|tryStack| - 1];
      var decl := CloseBlock(mark, UserLabel(l), sig.results, w0);      // nothing is above the mark
      r := Some(TryCode(l, c1, Append(landing, c2), decl.value));
    }

    /** Where an exception delegated to `v` goes. */
    method WriteDelegate(v: Var) returns (c: Code)
      requires ScopeOk(State()) && tryStack != []
      modifies this`tryStack, this`labelStack
      ensures (c, State()) == LowerDelegate(v, old(State()))
      ensures |labelStack| == |old(labelStack)| && |tryStack| == |old(tryStack)|
    {
      if v.Index? {
        c := Cons(UnwindOuter(tryStack[0].name), One(RtThrow));
      } else {
        var i := Find(v, false);
        var l := labelStack[i];
        if l.kind == TryKindL {
          c := One(Goto(CatchLabel(v.name)));
          tryStack := tryStack[l.tryStackSize := tryStack[l.tryStackSize].(used := true)];
        } else if l.tryStackSize == 0 {
          c := Cons(UnwindOuter(tryStack[0].name), One(RtThrow));
        } else {
          c := One(Goto(CatchLabel(tryStack[l.tryStackSize - 1].name)));
          tryStack := tryStack[l.tryStackSize - 1 := tryStack[l.tryStackSize - 1].(used := true)];
        }
      }
    }

    /** A function: its implicit label, its body, and the shared return. */
    method WriteFunc(body: seq<Expr>) returns (r: Option<Code>)
      requires State() == Writer([], [], [], false, true)
      requires Scoped(body, [Frame("", cfg.env.results)])
      modifies this
      ensures r.Some? <==> StackList(cfg.env, false, body, [Mark(Frame("", cfg.env.results), 0)], []).Some?
      ensures r.Some? ==> r.value == LowerFunc(cfg, body)
      ensures r.Some? ==> funcIncludes == old(funcIncludes) + Rethrown(body)
    {
      hide LowerList, StackList, Scoped, Rethrown;
      OpenLabel(FuncKind, "", FuncType([], cfg.env.results));
      assert State() == Writer([], [LabelEntry(Frame("", cfg.env.results), FuncKind, 0, 0, false)], [], false, true);
      assert Frames(labelStack) == [Frame("", cfg.env.results)]
          && MarksOf(labelStack) == [Mark(Frame("", cfg.env.results), 0)];
      ghost var w := State();
      var c :- WriteExprList(body);
      GrownList(cfg, body, w);
      var decl := WriteLabelDecl(FuncLabel);
      r := Some(Append(c, Append(decl, One(ReturnSlots(SlotsFrom(0, cfg.env.results))))));
    }
  }

  // ----- clauses as a chain -----

  /** A clause that has been written, between the braces of its `if`. */
  datatype Clause = Clause(tag: nat, exprs: seq<Expr>, unpack: Code, body: Code)

  function ClauseChain(clauses: seq<Clause>, rest: Code): Code
    decreases |clauses|
  {
    if clauses == [] then rest
    else
      var (x, c) := (clauses[0], ClauseChain(clauses[1..], rest));
      Cons(IfTag(x.tag, Append(x.unpack, x.body), ElseBound(c)), ElseLeft(c))
  }

  /** Every `else` of the chain has what it needs. */
  ghost predicate ChainSound(clauses: seq<Clause>, rest: Code)
    decreases |clauses|
  {
    clauses == [] ||
    (&& ChainSound(clauses[1..], rest)
     && var (x, c) := (clauses[0], ClauseChain(clauses[1..], rest));
        !ShapeOf(x.body).hangs && ShapeOf(c).n >= 1 && (ElseLeft(c) == Nil || LeavesList(x.exprs)))
  }

  lemma {:induction false} ChainLast(clauses: seq<Clause>, x: Clause, rest: Code)
    ensures ClauseChain(clauses + [x], rest) == ClauseChain(clauses, ClauseChain([x], rest))
    ensures ChainSound(clauses + [x], rest) == (ChainSound([x], rest) && ChainSound(clauses, ClauseChain([x], rest)))
    decreases |clauses|
  {
    hide ElseBound, ElseLeft, ShapeOf, LeavesList, Append;
    if clauses == [] {
      assert [] + [x] == [x];
    } else {
      assert (clauses + [x])[1..] == clauses[1..] + [x];
      ChainLast(clauses[1..], x, rest);
    }
  }

  /** The clauses so far, and what the remaining ones will add from the state `w1`. */
  ghost predicate ChainedTo(cfg: Config, cs: seq<Catch>, w0: Writer, w: Writer, clauses: seq<Clause>, i: nat,
      w1: Writer) {
    i <= |cs| &&
    var (c, w9) := LowerCatches(cfg, cs[i..], w0, w1);
    LowerCatches(cfg, cs, w0, w) == (ClauseChain(clauses, c), w9.(sound := w9.sound && ChainSound(clauses, c)))
  }

  lemma ChainedFirst(cfg: Config, cs: seq<Catch>, w0: Writer, w: Writer)
    ensures ChainedTo(cfg, cs, w0, w, [], 0, w)
  {
    assert cs[0..] == cs;
  }

  lemma ChainStep(cfg: Config, cs: seq<Catch>, w0: Writer, w: Writer, clauses: seq<Clause>, i: nat, w1: Writer,
      x: Clause, w2: Writer)
    requires i < |cs| && ChainedTo(cfg, cs, w0, w, clauses, i, w1) && cs[i].tag == Some(x.tag) && x.exprs == cs[i].exprs
    requires var tys := TagOf(cfg.env, x.tag);
             (x.body, w2) == LowerList(cfg, cs[i].exprs, ResetTs(w1, w0, tys)) && x.unpack == UnpackCode(|w0.ts|, tys)
    ensures ChainedTo(cfg, cs, w0, w, clauses + [x], i + 1, w2)
  {
    hide LowerList, ResetTs, UnpackCode, ElseBound, ElseLeft, ShapeOf, LeavesList, Append, ClauseChain, ChainSound;
    var c2 := LowerCatches(cfg, cs[i + 1..], w0, w2).0;
    assert cs[i..][1..] == cs[i + 1..];
    ChainLast(clauses, x, c2);
    ChainOne(x, c2);
  }

  lemma ChainOne(x: Clause, c: Code)
    ensures ClauseChain([x], c) == Cons(IfTag(x.tag, Append(x.unpack, x.body), ElseBound(c)), ElseLeft(c))
    ensures ChainSound([x], c) <==>
        !ShapeOf(x.body).hangs && ShapeOf(c).n >= 1 && (ElseLeft(c) == Nil || LeavesList(x.exprs))
  {
    hide ElseBound, ElseLeft, ShapeOf, LeavesList, Append;
    assert [x][1..] == [];
  }

  method MakeChain(clauses: seq<Clause>, rest: Code) returns (c: Code)
    ensures c == ClauseChain(clauses, rest)
  {
    c := rest;
    var i := |clauses|;
    while i > 0
      invariant 0 <= i <= |clauses|
      invariant c == ClauseChain(clauses[i..], rest)
    {
      i := i - 1;
      assert clauses[i..][1..] == clauses[i + 1..];
      c := Cons(IfTag(clauses[i].tag, Append(clauses[i].unpack, clauses[i].body), ElseBound(c)), ElseLeft(c));
    }
    assert clauses[0..] == clauses;
  }

  // ----- what the writer's stacks keep -----

  lemma ScopeGrown(w: Writer, w1: Writer)
    requires ScopeOk(w) && Grown(w, w1)
    ensures ScopeOk(w1) && Frames(w1.labels) == Frames(w.labels) && MarksOf(w1.labels) == MarksOf(w.labels)
  {
    GrownFrames(w, w1);
    GrownMarks(w, w1);
    forall i | 0 <= i < |w1.labels|
      ensures w1.labels[i].tryStackSize <= |w1.tries| && (w1.labels[i].kind == TryKindL ==>
          w1.labels[i].tryStackSize < |w1.tries|)
    {
      assert w1.labels[i] == w.labels[i].(used := w1.labels[i].used);
    }
  }

  lemma LabelFound(w: Writer, v: Var)
    requires ScopeOk(w) && Resolve(Frames(w.labels), v).Some?
    ensures FindLabel(w.labels, v) < |w.labels| && Resolve(Frames(w.labels), v) == Some(FindLabel(w.labels, v))
    ensures var l := w.labels[FindLabel(w.labels, v)];
            BranchFits(MarksOf(w.labels), v, |w.ts|) <==> l.frame.sig == [] || l.typeStackSize + |l.frame.sig| <= |w.ts|
    ensures v.Index? ==> v.depth + 1 == |w.labels|
  {
    MarkFrames(w.labels);
    if v.Name? { FindNamedFrame(w.labels, v.name); }
  }

  lemma GotoKeeps(w: Writer, v: Var)
    requires ScopeOk(w)
    ensures var w1 := LowerGoto(v, w).1;
            ScopeOk(w1) && Frames(w1.labels) == Frames(w.labels) && MarksOf(w1.labels) == MarksOf(w.labels)
                && w1 == w.(labels := w1.labels)
  {
    GrownGoto(v, w);
    ScopeGrown(w, LowerGoto(v, w).1);
  }

  lemma ReturnResolves(w: Writer)
    requires ScopeOk(w)
    ensures w.labels != [] && Resolve(Frames(w.labels), Index(|w.labels| - 1)).Some?
  {}

  lemma DropNone(ts: seq<Type>)
    ensures DropN(ts, 0) == ts && forall n: nat {:trigger DropN(ts, n)} :: DropN(ts, n) + [] == DropN(ts, n)
  {}

  lemma ListEmpty(cfg: Config, w: Writer, c: Code, ms: seq<Mark>)
    ensures Append(c, LowerList(cfg, [], w).0) == c && LowerList(cfg, [], w).1 == w
    ensures StackList(cfg.env, false, [], ms, w.ts).Some? && Rethrown([]) == {}
  {
    AppendNil(c);
  }

  /** A list read one expression on, if the writer gets past that expression. */
  lemma ListUnfold(cfg: Config, es: seq<Expr>, w: Writer)
    requires es != [] && ScopeOk(w) && Scoped(es, Frames(w.labels))
    ensures ScopedExpr(es[0], Frames(w.labels)) && Rethrown(es) == RethrownBy(es[0]) + if Ends(es[0]) then {}
        else Rethrown(es[1..])
    ensures var ms := MarksOf(w.labels);
            var r := StackExpr(cfg.env, false, es[0], ms, w.ts);
            var (c1, w1) := LowerExpr(cfg, es[0], w);
            && (r.None? ==> StackList(cfg.env, false, es, ms, w.ts).None?)
            && (r.Some? ==>
                w1.ts == r.value && ScopeOk(w1) && Scoped(es[1..], Frames(w1.labels)) && MarksOf(w1.labels) == ms)
            && (r.Some? ==> StackList(cfg.env, false, es, ms, w.ts) == if Ends(es[0]) then r
                else StackList(cfg.env, false, es[1..], ms, w1.ts))
            && (if Ends(es[0]) then LowerList(cfg, es, w) == (c1, w1)
                else var (c2, w2) := LowerList(cfg, es[1..], w1); LowerList(cfg, es, w) == (Append(c1, c2), w2))
  {
    hide LowerExpr, StackExpr, ScopedExpr, ScopeOk, Grown, RethrownBy;
    var r := StackExpr(cfg.env, false, es[0], MarksOf(w.labels), w.ts);
    if r.Some? {
      StackExprIs(cfg, es[0], w);
      GrownExpr(cfg, es[0], w);
      ScopeGrown(w, LowerExpr(cfg, es[0], w).1);
    }
  }

  /** The start of a block's body. */
  lemma BodyStarts(w: Writer, w0: Writer, f: Frame, kind: LabelKind, params: seq<Type>, w1: Writer)
    requires ScopeOk(w) && w0 == w.(ts := w0.ts) && w1 == Enter(w0, f, kind, params) && kind != TryKindL
    ensures ScopeOk(w1) && Frames(w1.labels) == Frames(w.labels) + [f]
        && MarksOf(w1.labels) == MarksOf(w.labels) + [Mark(f, |w0.ts|)]
    ensures w1.ts == w0.ts + params
  {
    EnterFrames(w0, f, kind, params);
    EnterMarks(w0, f, kind, params);
    forall i | 0 <= i < |w.labels| ensures w1.labels[i] == w.labels[i] {}
  }

  lemma TryStarts(w: Writer, w0: Writer, f: Frame, params: seq<Type>, w1: Writer)
    requires ScopeOk(w) && w0 == w.(ts := w0.ts) && w1 == EnterTry(w0, f, params)
    ensures ScopeOk(w1) && Frames(w1.labels) == Frames(w.labels) + [f]
        && MarksOf(w1.labels) == MarksOf(w.labels) + [Mark(f, |w0.ts|)]
    ensures w1.ts == w0.ts + params && w1.labels != [] && w1.tries != []
  {
    EnterFrames(w0, f, TryKindL, params);
    EnterMarks(w0, f, TryKindL, params);
    forall i | 0 <= i < |w.labels| ensures w1.labels[i] == w.labels[i] {}
  }

  /** The end of a body that has been written. */
  lemma BodyEnds(cfg: Config, es: seq<Expr>, w1: Writer, w2: Writer)
    requires ScopeOk(w1) && w2 == LowerList(cfg, es, w1).1
        && StackList(cfg.env, false, es, MarksOf(w1.labels), w1.ts).Some?
    ensures StackList(cfg.env, false, es, MarksOf(w1.labels), w1.ts) == Some(w2.ts)
    ensures Grown(w1, w2) && ScopeOk(w2) && w2.labels != [] && Frames(w2.labels) == Frames(w1.labels)
        && MarksOf(w2.labels) == MarksOf(w1.labels)
  {
    hide LowerList, StackList;
    StackIs(cfg, es, w1);
    GrownList(cfg, es, w1);
    ScopeGrown(w1, w2);
  }

  lemma ResetReads(w0: Writer)
    ensures forall ts: seq<Type> {:trigger Reset(false, w0.ts, ts)} :: Reset(false, w0.ts, ts).Some? <==>
        |w0.ts| <= |ts|
    ensures forall ts: seq<Type> {:trigger Reset(false, w0.ts, ts)} :: |w0.ts| <= |ts| ==>
        Reset(false, w0.ts, ts).value == ts[..|w0.ts|]
    ensures forall w: Writer, tys: seq<Type> {:trigger ResetTs(w, w0, tys)} | |w0.ts| <= |w.ts| ::
        ResetTs(w, w0, tys).ts == w.ts[..|w0.ts|] + tys
  {}

  lemma ResetMore(w: Writer, w0: Writer, ts: seq<Type>)
    ensures ResetTs(w, w0, ts) == ResetTs(w, w0, []).(ts := ResetTs(w, w0, []).ts + ts)
  {}

  lemma TryStays(w1: Writer, w2: Writer)
    requires Grown(w1, w2) && w1.labels != [] && w1.tries != []
    ensures w2.labels != [] && w2.tries != []
  {}

  lemma IfReads(env: Env, e: Expr, ms: seq<Mark>, ts: seq<Type>)
    requires e.If?
    ensures |ts| < 1 + |e.decl.sig.params| ==> StackExpr(env, false, e, ms, ts).None?
    ensures |ts| >= 1 + |e.decl.sig.params| ==>
              var sig := e.decl.sig;
              var base := DropN(DropN(ts, 1), |sig.params|);
              var ms1 := ms + [Mark(Frame(e.name, sig.results), |base|)];
              var ts1 := StackList(env, false, e.thn, ms1, base + sig.params);
              (StackExpr(env, false, e, ms, ts).Some? <==>
                && ts1.Some? && Reset(false, base, ts1.value).Some?
                && (e.els != [] ==>
                      var ts2 := StackList(env, false, e.els, ms1, Reset(false, base, ts1.value).value + sig.params);
                      ts2.Some? && Reset(false, base, ts2.value).Some?))
  {
    hide StackList, Reset;
    if |ts| >= 1 + |e.decl.sig.params| {
      StackIf(env, false, e, ms, ts);
      hide StackExpr;
    }
  }

  lemma TryReads(env: Env, e: Expr, ms: seq<Mark>, ts: seq<Type>)
    requires e.Try? && e.kind != PlainTry
    ensures |ts| < |e.decl.sig.params| ==> StackExpr(env, false, e, ms, ts).None?
    ensures |ts| >= |e.decl.sig.params| ==>
              var sig := e.decl.sig;
              var base := DropN(ts, |sig.params|);
              var ms1 := ms + [Mark(Frame(e.name, sig.results), |base|)];
              var ts1 := StackList(env, false, e.body, ms1, base + sig.params);
              (StackExpr(env, false, e, ms, ts).Some? <==>
                && ts1.Some? && Reset(false, base, ts1.value).Some?
                && (e.kind == DelegateTry ==> Resolve(FramesOf(ms), e.delegate).Some?)
                && (e.kind == CatchTry ==>
                      && e.catches != []
                      && var ts2 := StackCatches(env, false, e.catches, ms1, base, Reset(false, base, ts1.value).value);
                         ts2.Some? && Reset(false, base, ts2.value).Some?))
  {
    hide StackList, StackCatches, Reset, Resolve;
    if |ts| >= |e.decl.sig.params| {
      StackTry(env, false, e, ms, ts);
      hide StackExpr;
    }
  }

  /** The state in which a try's clauses are written. */
  lemma CatchStarts(w: Writer, w0: Writer, w2: Writer, f: Frame, params: seq<Type>)
    requires ScopeOk(w) && w0 == w.(ts := w0.ts) && Grown(EnterTry(w0, f, params), w2) && |w0.ts| <= |w2.ts|
    ensures var w3 := BeginCatches(w2, w0);
            && w3.tries != [] && w3.labels != [] && ScopeOk(PopTry(w3))
                && PopTry(w3) == w3.(tries := w3.tries[..|w3.tries| - 1])
            && Frames(w3.labels) == Frames(w.labels) + [f]
                && MarksOf(w3.labels) == MarksOf(w.labels) + [Mark(f, |w0.ts|)]
            && w3.ts == w2.ts[..|w0.ts|]
  {
    var w1 := EnterTry(w0, f, params);
    var w3 := BeginCatches(w2, w0);
    TryStarts(w, w0, f, params, w1);
    GrownFrames(w1, w2);
    GrownMarks(w1, w2);
    CatchMarks(w2, w0);
    var wh := PopTry(w3);
    forall i | 0 <= i < |wh.labels|
      ensures wh.labels[i].tryStackSize <= |wh.tries| && (wh.labels[i].kind == TryKindL ==>
          wh.labels[i].tryStackSize < |wh.tries|)
    {
      assert w2.labels[i] == w1.labels[i].(used := w2.labels[i].used);
      if i < |w.labels| { assert w1.labels[i] == w.labels[i] && wh.labels[i] == w2.labels[i]; }
    }
  }

  lemma DelegateStarts(w: Writer, w0: Writer, w2: Writer, f: Frame, params: seq<Type>)
    requires ScopeOk(w) && w0 == w.(ts := w0.ts) && Grown(EnterTry(w0, f, params), w2) && |w0.ts| <= |w2.ts|
    ensures var w3 := BeginCatches(w2, w0);
            w3.tries != [] && w3.labels != [] && ScopeOk(w3) && w3.ts == w2.ts[..|w0.ts|]
  {
    CatchStarts(w, w0, w2, f, params);
  }

  lemma CatchEnds(cfg: Config, cs: seq<Catch>, w0: Writer, w: Writer, w9: Writer)
    requires ScopeOk(w) && w9 == LowerCatches(cfg, cs, w0, w).1
        && StackCatches(cfg.env, false, cs, MarksOf(w.labels), w0.ts, w.ts).Some?
    ensures w9.labels != [] && StackCatches(cfg.env, false, cs, MarksOf(w.labels), w0.ts, w.ts) == Some(w9.ts)
  {
    hide LowerCatches, StackCatches;
    StackCatchesIs(cfg, cs, w0, w);
    GrownCatches(cfg, cs, w0, w);
  }

  lemma ClauseStarts(w: Writer, w0: Writer, tys: seq<Type>, w1: Writer)
    requires ScopeOk(w) && w1 == ResetTs(w, w0, tys)
    ensures ScopeOk(w1) && Frames(w1.labels) == Frames(w.labels) && MarksOf(w1.labels) == MarksOf(w.labels)
  {
    GrownReset(w, w0, tys);
    ScopeGrown(w, w1);
  }

  /** The clauses read one clause on. */
  lemma CatchesReads(cfg: Config, cs: seq<Catch>, w0: Writer, w: Writer)
    requires cs != [] && ScopedCatches(cs, Frames(w.labels))
    ensures Scoped(cs[0].exprs, Frames(w.labels)) && ScopedCatches(cs[1..], Frames(w.labels))
    ensures RethrownIn(cs) == Rethrown(cs[0].exprs) + if cs[0].tag == None then {} else RethrownIn(cs[1..])
    ensures var ms := MarksOf(w.labels);
            var r := StackCatches(cfg.env, false, cs, ms, w0.ts, w.ts);
            && (|w0.ts| > |w.ts| ==> r.None?)
            && (|w0.ts| <= |w.ts| ==>
                  if cs[0].tag == None then
                    && LowerCatches(cfg, cs, w0, w) == LowerList(cfg, cs[0].exprs, ResetTs(w, w0, []))
                    && r == StackList(cfg.env, false, cs[0].exprs, ms, ResetTs(w, w0, []).ts)
                  else
                    var ts1 := StackList(cfg.env, false, cs[0].exprs, ms,
                        ResetTs(w, w0, TagOf(cfg.env, cs[0].tag.value)).ts);
                    r == if ts1.None? then None else StackCatches(cfg.env, false, cs[1..], ms, w0.ts, ts1.value))
  {
    hide LowerList, StackList, Scoped, Rethrown, Chained;
    assert forall ts: seq<Type> :: ts + [] == ts;
  }

  lemma CatchesDone(cfg: Config, cs: seq<Catch>, w0: Writer, w: Writer, ms: seq<Mark>)
    ensures cs[|cs|..] == [] && LowerCatches(cfg, [], w0, w) == LowerThrow(w)
    ensures StackCatches(cfg.env, false, [], ms, w0.ts, w.ts).Some? && RethrownIn([]) == {}
  {}

  method MakeCases(codes: seq<Code>, d: Code) returns (cases: Cases)
    ensures cases == Prepend(codes, DefaultCase(d))
  {
    cases := DefaultCase(d);
    var i := |codes|;
    while i > 0
      invariant 0 <= i <= |codes|
      invariant cases == Prepend(codes[i..], DefaultCase(d))
    {
      i := i - 1;
      assert codes[i..][1..] == codes[i + 1..];
      cases := Case(codes[i], cases);
    }
    assert codes[0..] == codes;
  }
}

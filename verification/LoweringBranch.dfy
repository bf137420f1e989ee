/** Branches: the moves, the restored unwind target and the jump written for a branch put
    the C machine at the label with the operands on the label's base. */
module LoweringBranch {
  import opened Ir
  import opened Wasm
  import opened Typing
  import opened CLang
  import opened Lowering
  import opened LoweringShape
  import opened LoweringRel
  import opened LoweringInstr

  lemma JumpsEarlier(ctx: Ctx, w: Writer, w1: Writer)
    requires JumpsOk(ctx, w1) && Grown(w, w1)
    ensures JumpsOk(ctx, w)
  {
    forall i | 0 <= i < |w.labels| && w.labels[i].used
      ensures Find(EntryLabel(w.labels, i), ctx.p.body, Nil) == Some(ctx.ks[i])
    {
      assert w1.labels[i].used && EntryLabel(w1.labels, i) == EntryLabel(w.labels, i);
    }
    forall j | 0 <= j < |w.tries| && w.tries[j].used
      ensures Find(CatchLabel(w.tries[j].name), ctx.p.body, Nil) == Some(ctx.hs[j])
    {
      assert w1.tries[j].used;
    }
  }

  lemma GrownTrans(w: Writer, w1: Writer, w2: Writer)
    requires Grown(w, w1) && Grown(w1, w2)
    ensures Grown(w, w2)
  {
    forall i | 0 <= i < |w.labels|
      ensures w2.labels[i] == w.labels[i].(used := w2.labels[i].used) && (w.labels[i].used ==> w2.labels[i].used)
    {
      assert w1.labels[i] == w.labels[i].(used := w1.labels[i].used);
    }
    forall j | 0 <= j < |w.tries|
      ensures w2.tries[j].name == w.tries[j].name && (w.tries[j].used ==> w2.tries[j].used)
    {
      assert w1.tries[j].name == w.tries[j].name;
    }
  }

  /** A named label in scope is found where validation found it. */
  lemma {:induction false} FindNamedFrame(labels: seq<LabelEntry>, n: string)
    requires FindFrame(Frames(labels), n).Some?
    ensures FindFrame(Frames(labels), n) == Some(FindNamed(labels, n))
    ensures FindNamed(labels, n) < |labels| && labels[FindNamed(labels, n)].frame.name == n
    decreases |labels|
  {
    var k := |labels| - 1;
    if labels[k].frame.name != n {
      assert Frames(labels)[..k] == Frames(labels[..k]);
      FindNamedFrame(labels[..k], n);
    }
  }

  /** What a valid branch target denotes in the writer's label stack. */
  lemma TargetFound(w: Writer, v: Var, ts: seq<Type>, size: nat, used: set<string>)
    requires StacksOk(w, size, used) && BranchOk(Frames(w.labels), v, ts)
    ensures var i := FindLabel(w.labels, v);
            i < |w.labels| && i == TargetIndex(w.labels, TargetOf(v))
            && EntryLabel(w.labels, i) == GotoTarget(v) && EndsWith(ts, w.labels[i].frame.sig)
  {
    if v.Name? {
      FindNamedFrame(w.labels, v.name);
      assert w.labels[0].frame.name == "";
    }
  }

  /** After the moves of a branch the top `|sig|` operands sit just above `base`. */
  lemma SimMoves(ctx: Ctx, ts: seq<Type>, below: seq<Value>, stack: seq<Value>, base: nat, sig: seq<Type>, k: Code,
      s: Store)
    returns (n: nat, s1: Store)
    requires ValsAt(ts, below + stack, s.slots)
    requires base <= |below| && |sig| <= |stack| && EndsWith(ts, sig)
    ensures Steps(ctx.host, ctx.p, Running(Append(BranchMoves(ts, base, sig), k), s), n) == Running(k, s1)
    ensures s1 == s.(slots := s1.slots)
    ensures ValsAt(ts[..base] + sig, below[..base] + TopN(stack, |sig|), s1.slots)
  {
    hide Step, Steps, Append, Moves, Moved, ValsAt;
    var src := |ts| - |sig|;
    SizesMatch(ts, below, stack, s);
    if src == base {
      n, s1 := 0, s;
      NothingMoves(ts, below, stack, base, sig);
      NilFirst(k);
      NoSteps(ctx, Running(k, s));
    } else {
      assert TopN(ts, |sig|) == sig;
      n := |sig|;
      s1 := MovesRun(ctx, ts, below, stack, base, sig, k, s);
    }
  }

  lemma MovesRun(ctx: Ctx, ts: seq<Type>, below: seq<Value>, stack: seq<Value>, base: nat, sig: seq<Type>, k: Code,
      s: Store)
    returns (s1: Store)
    requires ValsAt(ts, below + stack, s.slots)
    requires base <= |below| && |sig| <= |stack| && EndsWith(ts, sig) && base < |ts| - |sig|
    ensures Steps(ctx.host, ctx.p, Running(Append(Moves(base, sig, |ts| - |sig|, sig), k), s), |sig|) == Running(k, s1)
    ensures s1 == s.(slots := s1.slots)
    ensures ValsAt(ts[..base] + sig, below[..base] + TopN(stack, |sig|), s1.slots)
  {
    hide Step, Steps, Append, Moves, Moved, ValsAt;
    var src := |ts| - |sig|;
    TopHeld(ts, below, stack, sig, s);
    RunMoves(ctx, base, sig, src, sig, k, s);
    s1 := s.(slots := Moved(s.slots, base, sig, src, sig));
    MovesHold(ts, below, stack, base, sig, s);
  }

  lemma MovesHold(ts: seq<Type>, below: seq<Value>, stack: seq<Value>, base: nat, sig: seq<Type>, s: Store)
    requires ValsAt(ts, below + stack, s.slots)
    requires base <= |below| && |sig| <= |stack| && EndsWith(ts, sig) && base < |ts| - |sig|
    requires forall i | 0 <= i < |sig| :: (|ts| - |sig| + i, sig[i]) in s.slots
    ensures ValsAt(ts[..base] + sig, below[..base] + TopN(stack, |sig|),
        Moved(s.slots, base, sig, |ts| - |sig|, sig))
  {
    hide Moved, ValsAt, TopN;
    var src := |ts| - |sig|;
    ParallelMove(s.slots, base, sig, src, sig);
    MovedVals(ts, below, stack, base, sig, s.slots, Moved(s.slots, base, sig, src, sig));
  }

  lemma NothingMoves(ts: seq<Type>, below: seq<Value>, stack: seq<Value>, base: nat, sig: seq<Type>)
    requires |ts| == |below| + |stack| && base <= |below| && |sig| <= |stack| && EndsWith(ts, sig)
    requires base == |ts| - |sig|
    ensures ts[..base] + sig == ts && below[..base] + TopN(stack, |sig|) == below + stack
  {
    assert base == |below| && |sig| == |stack| && sig == ts[base..];
    hide EndsWith;
    assert below[..base] == below && TopN(stack, |sig|) == stack;
    assert ts[..base] + ts[base..] == ts;
  }

  lemma SizesMatch(ts: seq<Type>, below: seq<Value>, stack: seq<Value>, s: Store)
    requires ValsAt(ts, below + stack, s.slots)
    ensures |ts| == |below| + |stack|
  {}

  lemma NilFirst(k: Code)
    ensures Append(Nil, k) == k
  {}

  lemma NoSteps(ctx: Ctx, c: Conf)
    ensures Steps(ctx.host, ctx.p, c, 0) == c
  {}

  lemma TopHeld(ts: seq<Type>, below: seq<Value>, stack: seq<Value>, sig: seq<Type>, s: Store)
    requires ValsAt(ts, below + stack, s.slots) && EndsWith(ts, sig)
    ensures forall i | 0 <= i < |sig| :: (|ts| - |sig| + i, sig[i]) in s.slots
  {
    forall i | 0 <= i < |sig| ensures (|ts| - |sig| + i, sig[i]) in s.slots {
      assert ts[|ts| - |sig| + i] == ts[|ts| - |sig|..][i] == sig[i];
    }
  }

  lemma MovedVals(ts: seq<Type>, below: seq<Value>, stack: seq<Value>, base: nat, sig: seq<Type>,
      slots: map<(int, Type), Value>, r: map<(int, Type), Value>)
    requires ValsAt(ts, below + stack, slots)
    requires base <= |below| && |sig| <= |stack| && EndsWith(ts, sig)
    requires forall i | 0 <= i < |sig| :: (|ts| - |sig| + i, sig[i]) in slots
    requires forall i | 0 <= i < |sig| ::
        (base + i, sig[i]) in r && r[(base + i, sig[i])] == slots[(|ts| - |sig| + i, sig[i])]
    requires forall h: int, t: Type | h < base || base + |sig| <= h ::
        ((h, t) in r <==> (h, t) in slots) && ((h, t) in slots ==> r[(h, t)] == slots[(h, t)])
    ensures ValsAt(ts[..base] + sig, below[..base] + TopN(stack, |sig|), r)
  {
    var ts1, vs1 := ts[..base] + sig, below[..base] + TopN(stack, |sig|);
    forall h | 0 <= h < |ts1| ensures (h, ts1[h]) in r && r[(h, ts1[h])] == vs1[h] {
      if h < base {
        assert ts[h] == ts1[h] && (below + stack)[h] == vs1[h];
      } else {
        var i := h - base;
        var g := |ts| - |sig| + i;
        assert ts[g] == ts[|ts| - |sig|..][i] == sig[i];
        assert (below + stack)[g] == TopN(stack, |sig|)[i] == vs1[h];
        assert (base + i, sig[i]) == (h, ts1[h]);
      }
    }
  }

  /** The unwind target a branch leaves behind is that of the tries open at its label. */
  lemma SimUnwindCode(ctx: Ctx, w: Writer, size: nat, k: Code, s: Store)
    returns (n: nat, s1: Store)
    requires s.unwind == TopUnwind(w.tries) && TryVars(w.tries, ctx.hs, s.outer, s.bufs) && size <= |w.tries|
    ensures Steps(ctx.host, ctx.p, Running(Append(UnwindCode(w.tries, size), k), s), n) == Running(k, s1)
    ensures s1 == s.(unwind := TopUnwind(w.tries[..size]))
  {
    if size < |w.tries| {
      var name := w.tries[size].name;
      n, s1 := 1, s.(unwind := s.outer[name]);
      OneStep(ctx, Running(Cons(UnwindOuter(name), k), s), Running(k, s1));
    } else {
      assert w.tries[..size] == w.tries;
      n, s1 := 0, s;
    }
  }

  lemma SimGoto(ctx: Ctx, v: Var, tb: seq<Type>, ts: seq<Type>, w: Writer, used: set<string>, below: seq<Value>,
      caught: Caught, m: Machine, k: Code, s: Store)
    returns (n: nat, c: Conf)
    requires BranchOk(Frames(w.labels), v, ts) && w.ts == tb + ts && |tb| == |below|
    requires Rel(ctx, w, below, caught, m, s) && StacksOk(w, |below|, used)
    requires JumpsOk(ctx, LowerGoto(v, w).1)
    ensures n >= 1 && c == Steps(ctx.host, ctx.p, Running(Append(LowerGoto(v, w).0, k), s), n)
    ensures BranchRel(ctx, w, TargetIndex(w.labels, TargetOf(v)), below, caught, m, c)
  {
    hide BranchMoves, UnwindCode, JumpsOk, LowerGoto, Append, Step, Steps, TryVars, ValsAt, DataRel, SavedOk,
        BranchOk, EndsWith, FindNamed;
    TargetFound(w, v, ts, |below|, used);
    var i := FindLabel(w.labels, v);
    var l := w.labels[i];
    assert l == w.labels[i] && l.typeStackSize <= |below| && l.tryStackSize <= |w.tries|;
    hide StacksOk;
    EndsWithAbove(tb, ts, l.frame.sig);
    var moves, unwind := BranchMoves(w.ts, l.typeStackSize, l.frame.sig), UnwindCode(w.tries, l.tryStackSize);
    var goto := One(Goto(GotoTarget(v)));
    AppendAssoc(moves, Append(unwind, goto), k);
    AppendAssoc(unwind, goto, k);
    GotoLands(ctx, v, w, i);
    var rest := Append(Append(unwind, goto), k);
    AppendOne(Goto(GotoTarget(v)), k);
    LowerGotoIs(v, w, i);
    RelSizes(ctx, w, tb, ts, below, caught, m, s);
    TryVarsPrefix(w.tries, ctx.hs, s.outer, s.bufs, l.tryStackSize);
    var n1, s1 := SimMoves(ctx, w.ts, below, m.stack, l.typeStackSize, l.frame.sig, rest, s);
    var n2, s2 := SimUnwindCode(ctx, w, l.tryStackSize, Append(goto, k), s1);
    n := n1 + n2 + 1;
    c := Running(ctx.ks[i], s2);
    var c0 := Running(Append(Append(moves, Append(unwind, goto)), k), s);
    StepsAdd(ctx.host, ctx.p, c0, n1, n2 + 1);
    StepsAdd(ctx.host, ctx.p, Running(rest, s1), n2, 1);
    GotoStep(ctx, GotoTarget(v), k, s2, ctx.ks[i]);
    DataStays(ctx, m, s, s2);
  }

  lemma RelSizes(ctx: Ctx, w: Writer, tb: seq<Type>, ts: seq<Type>, below: seq<Value>, caught: Caught, m: Machine,
      s: Store)
    requires Rel(ctx, w, below, caught, m, s) && w.ts == tb + ts && |tb| == |below|
    ensures |m.stack| == |ts| && ValsAt(w.ts, below + m.stack, s.slots)
  {}

  /** Stack variables and the unwind target are not observed. */
  lemma DataStays(ctx: Ctx, m: Machine, s: Store, s1: Store)
    requires DataRel(ctx, m, s) && s1 == s.(slots := s1.slots, unwind := s1.unwind)
    ensures DataRel(ctx, m, s1)
  {}

  lemma LowerGotoIs(v: Var, w: Writer, i: nat)
    requires i == FindLabel(w.labels, v) && i < |w.labels|
    ensures var l := w.labels[i];
            LowerGoto(v, w) ==
              (Append(BranchMoves(w.ts, l.typeStackSize, l.frame.sig),
                      Append(UnwindCode(w.tries, l.tryStackSize), One(Goto(GotoTarget(v))))), MarkLabel(w, i))
  {}

  lemma GotoStep(ctx: Ctx, l: CLabel, k: Code, s: Store, k1: Code)
    requires Find(l, ctx.p.body, Nil) == Some(k1)
    ensures Steps(ctx.host, ctx.p, Running(Cons(Goto(l), k), s), 1) == Running(k1, s)
  {
    OneStep(ctx, Running(Cons(Goto(l), k), s), Running(k1, s));
  }

  lemma EndsWithAbove(tb: seq<Type>, ts: seq<Type>, sig: seq<Type>)
    requires EndsWith(ts, sig)
    ensures EndsWith(tb + ts, sig) && |sig| <= |ts|
  {
    assert (tb + ts)[|tb + ts| - |sig|..] == ts[|ts| - |sig|..];
  }

  lemma GotoLands(ctx: Ctx, v: Var, w: Writer, i: nat)
    requires i == FindLabel(w.labels, v) && i < |w.labels| && EntryLabel(w.labels, i) == GotoTarget(v)
    requires JumpsOk(ctx, LowerGoto(v, w).1)
    ensures |ctx.ks| == |w.labels| && |ctx.hs| == |w.tries| && Find(GotoTarget(v), ctx.p.body, Nil) == Some(ctx.ks[i])
  {
    var w1 := MarkLabel(w, i);
    assert w1.labels[i].used;
    assert EntryLabel(w1.labels, i) == EntryLabel(w.labels, i);
  }

  /** Every case of a switch jumps, so the chosen one is all that runs. */
  lemma {:induction false} SimCases(ctx: Ctx, vs: seq<Var>, d: Var, idx: nat, tb: seq<Type>, ts: seq<Type>, w: Writer,
      used: set<string>, below: seq<Value>, caught: Caught, m: Machine, k: Code, s: Store)
    returns (n: nat, c: Conf)
    requires BranchOk(Frames(w.labels), d, ts) && w.ts == tb + ts && |tb| == |below|
    requires forall v | v in vs :: BranchOk(Frames(w.labels), v, ts)
    requires Rel(ctx, w, below, caught, m, s) && StacksOk(w, |below|, used)
    requires JumpsOk(ctx, LowerCases(vs, d, w).1)
    ensures c == Steps(ctx.host, ctx.p, Running(Append(SelectCase(LowerCases(vs, d, w).0, idx), k), s), n)
    ensures BranchRel(ctx, w, TargetIndex(w.labels, TargetOf(if idx < |vs| then vs[idx] else d)), below, caught, m, c)
    decreases |vs|
  {
    hide Append, Steps, StacksOk, Rel, LowerGoto, BranchRel, JumpsOk, Grown, BranchOk;
    CasesUnfold(vs, d, w, idx, k);
    if vs == [] {
      n, c := SimGoto(ctx, d, tb, ts, w, used, below, caught, m, k, s);
    } else {
      var (c1, w1) := LowerGoto(vs[0], w);
      var (rest, w2) := LowerCases(vs[1..], d, w1);
      GrownGoto(vs[0], w);
      GrownCases(vs[1..], d, w1);
      if idx == 0 {
        JumpsEarlier(ctx, w1, w2);
        n, c := SimGoto(ctx, vs[0], tb, ts, w, used, below, caught, m, Append(CasesFrom(rest), k), s);
      } else {
        GrownFrames(w, w1);
        StacksGrown(w, w1, |below|, used);
        RelGrown(ctx, w, w1, below, caught, m, s);
        n, c := SimCases(ctx, vs[1..], d, idx - 1, tb, ts, w1, used, below, caught, m, k, s);
        BranchGrown(ctx, w, w1, TargetOf(if idx < |vs| then vs[idx] else d), below, caught, m, c);
      }
    }
  }

  lemma CasesUnfold(vs: seq<Var>, d: Var, w: Writer, idx: nat, k: Code)
    ensures var chosen := Append(SelectCase(LowerCases(vs, d, w).0, idx), k);
            if vs == [] then LowerCases(vs, d, w).1 == LowerGoto(d, w).1 && chosen == Append(LowerGoto(d, w).0, k)
            else var (c1, w1) := LowerGoto(vs[0], w);
                 var (rest, w2) := LowerCases(vs[1..], d, w1);
                 LowerCases(vs, d, w).1 == w2
                 && chosen == if idx == 0 then Append(c1, Append(CasesFrom(rest), k))
                     else Append(SelectCase(rest, idx - 1), k)
  {
    hide LowerGoto;
    if vs != [] { AppendAssoc(LowerGoto(vs[0], w).0, CasesFrom(LowerCases(vs[1..], d, LowerGoto(vs[0], w).1).0), k); }
  }

  lemma StacksGrown(w: Writer, w1: Writer, size: nat, used: set<string>)
    requires StacksOk(w, size, used) && Grown(w, w1) && size <= |w1.ts|
    ensures StacksOk(w1, size, used)
  {
    assert w1.labels[0] == w.labels[0].(used := w1.labels[0].used);
    forall j | 0 <= j < |w1.tries| ensures w1.tries[j].name
        == w.tries[j].name { assert w1.tries[j].name == w.tries[j].name; }
    forall i | 0 <= i < |w1.labels|
      ensures w1.labels[i].typeStackSize <= size && w1.labels[i].tryStackSize <= |w1.tries|
      ensures w1.labels[i].kind == TryKindL ==>
          w1.labels[i].tryStackSize < |w1.tries| && w1.tries[w1.labels[i].tryStackSize].name == w1.labels[i].frame.name
      ensures i > 0 ==> w1.labels[i].frame.name in used
    {
      assert w1.labels[i] == w.labels[i].(used := w1.labels[i].used);
    }
  }

  lemma {:induction false} FindNamedGrown(ls: seq<LabelEntry>, ls1: seq<LabelEntry>, n: string)
    requires |ls1| == |ls| && forall i | 0 <= i < |ls| :: ls1[i].frame == ls[i].frame
    ensures FindNamed(ls1, n) == FindNamed(ls, n)
    decreases |ls|
  {
    if ls != [] { FindNamedGrown(ls[..|ls| - 1], ls1[..|ls| - 1], n); }
  }

  lemma SameTarget(w: Writer, w1: Writer, to: Target)
    requires Grown(w, w1)
    ensures TargetIndex(w1.labels, to) == TargetIndex(w.labels, to)
  {
    if to.ToLabel? {
      forall i | 0 <= i < |w.labels| ensures w1.labels[i].frame == w.labels[i].frame { var e := w1.labels[i]; }
      FindNamedGrown(w.labels, w1.labels, to.name);
    }
  }

  lemma TryNames(tries: seq<TryEntry>, tries1: seq<TryEntry>, hs: seq<Code>, outer: map<string, Unwind>,
      bufs: map<string, Code>)
    requires |tries1| == |tries| && forall j | 0 <= j < |tries| :: tries1[j].name == tries[j].name
    ensures TopUnwind(tries1) == TopUnwind(tries)
    ensures TryVars(tries1, hs, outer, bufs) <==> TryVars(tries, hs, outer, bufs)
  {
    forall j | 0 <= j < |tries| ensures TopUnwind(tries1[..j]) == TopUnwind(tries[..j])
        && tries1[j].name == tries[j].name {}
  }

  lemma RelGrown(ctx: Ctx, w: Writer, w1: Writer, below: seq<Value>, caught: Caught, m: Machine, s: Store)
    requires Grown(w, w1) && w1.ts == w.ts
    ensures Rel(ctx, w1, below, caught, m, s) <==> Rel(ctx, w, below, caught, m, s)
  {
    TryNames(w.tries, w1.tries, ctx.hs, s.outer, s.bufs);
  }

  /** What a branch does depends on the writer's state only up to `used` marks. */
  lemma BranchGrown(ctx: Ctx, w: Writer, w1: Writer, to: Target, below: seq<Value>, caught: Caught, m: Machine, c: Conf)
    requires Grown(w, w1) && w1.ts == w.ts
    requires BranchRel(ctx, w1, TargetIndex(w1.labels, to), below, caught, m, c)
    ensures BranchRel(ctx, w, TargetIndex(w.labels, to), below, caught, m, c)
  {
    SameTarget(w, w1, to);
    var i := TargetIndex(w.labels, to);
    assert w1.labels[i] == w.labels[i].(used := w1.labels[i].used);
    var d := w.labels[i].tryStackSize;
    forall j | 0 <= j < d ensures w1.tries[..d][j].name
        == w.tries[..d][j].name { assert w1.tries[j].name == w.tries[j].name; }
    TryNames(w.tries[..d], w1.tries[..d], ctx.hs, c.s.outer, c.s.bufs);
  }
}

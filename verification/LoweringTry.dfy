/** Entering, ending and landing in a try: the unwind target is always that of the
    innermost open try, and an exception lands in the code of the right handler. */
module LoweringTry {
  import opened Ir
  import opened Wasm
  import opened Typing
  import opened CLang
  import opened Lowering
  import opened LoweringShape
  import opened LoweringRel
  import opened LoweringInstr
  import opened LoweringBranch
  import opened LoweringScope
  import opened LoweringLeaf

  /** The state after the opening statements of a try. */
  function TryOpened(l: string, handler: Code, s: Store): Store {
    s.(outer := s.outer[l := s.unwind], bufs := s.bufs[l := handler], unwind := Buffer(l))
  }

  lemma EnterTrySteps(ctx: Ctx, l: string, body: Code, handler: Code, after: Code, k: Code, s: Store)
    ensures var kk := Append(after, k);
            Steps(ctx.host, ctx.p, Running(Append(TryCode(l, body, handler, after), k), s), 2)
            == Running(Append(body, Cons(UnwindOuter(l), kk)), TryOpened(l, Append(handler, kk), s))
  {
    var kk := Append(after, k);
    var inner := Append(body, One(UnwindOuter(l)));
    AppendAssoc(body, One(UnwindOuter(l)), kk);
    AppendOne(UnwindOuter(l), kk);
    var s1 := s.(outer := s.outer[l := s.unwind], bufs := s.bufs[l := Append(handler, kk)]);
    TwoSteps(ctx, Running(Cons(IfTry(l, Cons(UnwindTo(l), inner), handler), kk), s),
             Running(Cons(UnwindTo(l), Append(inner, kk)), s1), Running(Append(inner, kk), s1.(unwind := Buffer(l))));
  }

  /** Opening a try extends the handlers in force by its own. */
  lemma EnterTryVars(tries: seq<TryEntry>, e: TryEntry, hs: seq<Code>, h: Code, handler: Code, s: Store)
    requires TryVars(tries, hs, s.outer, s.bufs) && s.unwind == TopUnwind(tries) && |hs| == |tries|
    requires Lands(handler, h) && forall j | 0 <= j < |tries| :: tries[j].name != e.name
    ensures var s1 := TryOpened(e.name, handler, s);
            TryVars(tries + [e], hs + [h], s1.outer, s1.bufs) && s1.unwind == TopUnwind(tries + [e])
  {
    var all := tries + [e];
    forall j | 0 <= j < |all| ensures TopUnwind(all[..j]) == TopUnwind(tries[..j]) {
      assert all[..j] == tries[..j];
    }
    assert tries[..|tries|] == tries;
  }

  /** The first state inside a try's body. */
  lemma EnterTryRel(ctx: Ctx, ctx1: Ctx, h: Code, handler: Code, tb: seq<Type>, ts: seq<Type>, params: seq<Type>,
      w: Writer, w1: Writer, l: string, used: set<string>, below: seq<Value>, caught: Caught, m: Machine, s: Store)
    requires EndsWith(ts, params) && w.ts == tb + ts && |tb| == |below|
    requires Rel(ctx, w, below, caught, m, s) && StacksOk(w, |below|, used) && l !in used && |ctx.hs| == |w.tries|
    requires ctx1 == ctx.(ks := ctx1.ks, hs := ctx.hs + [h]) && Lands(handler, h)
    requires w1.tries == w.tries + [TryEntry(l, false)] && w1.ts == DropN(w.ts, |params|) + params
    ensures var n := |params|;
            var b1 := below + DropN(m.stack, n);
            && DropN(w.ts, n) == tb + ts[..|ts| - n] && |DropN(w.ts, n)| == |b1|
            && n <= |m.stack| && b1 + TopN(m.stack, n) == below + m.stack
            && Rel(ctx1, w1, b1, caught, m.(stack := TopN(m.stack, n)), TryOpened(l, handler, s))
  {
    EnterTryVars(w.tries, TryEntry(l, false), ctx.hs, h, handler, s);
    hide StacksOk, TryVars;
    EnterRelVals(ctx, tb, ts, params, w, below, m, s);
  }

  lemma EnterRelVals(ctx: Ctx, tb: seq<Type>, ts: seq<Type>, params: seq<Type>, w: Writer, below: seq<Value>,
      m: Machine, s: Store)
    requires EndsWith(ts, params) && w.ts == tb + ts && |tb| == |below| && ValsAt(w.ts, below + m.stack, s.slots)
    ensures var n := |params|;
            var b1 := below + DropN(m.stack, n);
            && DropN(w.ts, n) == tb + ts[..|ts| - n] && |DropN(w.ts, n)| == |b1|
            && n <= |m.stack| && b1 + TopN(m.stack, n) == below + m.stack && DropN(w.ts, n) + params == w.ts
  {
    assert ts == ts[..|ts| - |params|] + params;
    assert below + DropN(m.stack, |params|) + TopN(m.stack, |params|) == below + m.stack;
  }

  /** Jump targets inside a try's body. */
  lemma JumpsTry(ctx: Ctx, ctx1: Ctx, kb: Code, h: Code, w2: Writer, w3: Writer)
    requires JumpsOk(ctx, w3) && |w2.labels| == |w3.labels| + 1 && |w2.labels| >= 2 && |w2.tries| == |w3.tries| + 1
    requires ctx1 == ctx.(ks := ctx.ks + [kb], hs := ctx.hs + [h])
    requires forall i {:trigger w2.labels[i]} {:trigger w3.labels[i]} | 0 <= i < |w3.labels| ::
        w3.labels[i].frame == w2.labels[i].frame && (w2.labels[i].used ==> w3.labels[i].used)
    requires forall j {:trigger w2.tries[j]} {:trigger w3.tries[j]} | 0 <= j < |w3.tries| ::
        w3.tries[j].name == w2.tries[j].name && (w2.tries[j].used ==> w3.tries[j].used)
    requires var l := w2.labels[|w3.labels|]; l.used ==> Find(UserLabel(l.frame.name), ctx.p.body, Nil) == Some(kb)
    requires var t := w2.tries[|w3.tries|]; t.used ==> Find(CatchLabel(t.name), ctx.p.body, Nil) == Some(h)
    ensures JumpsOk(ctx1, w2)
  {
    forall i | 0 <= i < |w2.labels| && w2.labels[i].used
      ensures Find(EntryLabel(w2.labels, i), ctx.p.body, Nil) == Some(ctx1.ks[i])
    {
      if i < |w3.labels| { assert w3.labels[i].used && EntryLabel(w3.labels, i) == EntryLabel(w2.labels, i); }
    }
    forall j | 0 <= j < |w2.tries| && w2.tries[j].used
      ensures Find(CatchLabel(w2.tries[j].name), ctx.p.body, Nil) == Some(ctx1.hs[j])
    {
      if j < |w3.tries| { assert w3.tries[j].used; }
    }
  }

  /** The statement that ends a try's body: the enclosing unwind target is in force again. */
  lemma EndTry(ctx: Ctx, ctx1: Ctx, w: Writer, w2: Writer, w3: Writer, l: string, below: seq<Value>, rest: seq<Value>,
      caught: Caught, m: Machine, k: Code, s: Store)
    requires Rel(ctx1, w2, below + rest, caught, m, s)
    requires ctx1 == ctx.(ks := ctx1.ks, hs := ctx1.hs) && ctx.hs <= ctx1.hs && |w.tries| <= |ctx.hs|
    requires |w2.tries| == |w.tries| + 1 && w2.tries[|w.tries|].name == l
        && forall j | 0 <= j < |w.tries| :: w2.tries[j].name == w.tries[j].name
    requires |w3.tries| == |w.tries| && (forall j | 0 <= j < |w.tries| :: w3.tries[j].name == w.tries[j].name)
        && w3.ts == w2.ts
    ensures var c1 := Steps(ctx.host, ctx.p, Running(Cons(UnwindOuter(l), k), s), 1);
            c1.Running? && c1.code == k && Rel(ctx, w3, below, caught, m.(stack := rest + m.stack), c1.s)
  {
    var d := |w.tries|;
    var s1 := s.(unwind := s.outer[l]);
    OneStep(ctx, Running(Cons(UnwindOuter(l), k), s), Running(k, s1));
    TryVarsPrefix(w2.tries, ctx1.hs, s.outer, s.bufs, d);
    TryNames(w2.tries[..d], w3.tries, ctx1.hs, s.outer, s.bufs);
    var w2' := w2.(tries := w2.tries[..d]);
    hide Steps, Step;
    RelSame(ctx, ctx1, w3, w2', below, rest, caught, m, s1);
  }

  /** Landing in a try with clauses: back in the enclosing unwind target, the exception saved
      when some clause rethrows it. */
  lemma LandCatch(ctx: Ctx, ctx1: Ctx, ctx2: Ctx, w: Writer, w1: Writer, wh: Writer, l: string, b1: seq<Value>,
      caught: Caught, x: Exn, m: Machine, c2: Code, k: Code, c: Conf)
    returns (n: nat, s2: Store)
    requires RaiseRel(ctx1, w1, |w.tries| + 1, b1, caught, x, m, c)
    requires ctx1.hs[..|w.tries|] == ctx.hs && |ctx1.hs| == |w.tries| + 1
    requires ctx1.hs[|w.tries|] == Cons(UnwindOuter(l), Append(Append(SaveCode(ctx.cfg, l), c2), k))
    requires ctx1 == ctx.(ks := ctx1.ks, hs := ctx1.hs) && ctx2 == ctx.(ks := ctx2.ks)
    requires |w1.tries| == |w.tries| + 1 && w1.tries[|w.tries|].name == l
        && forall j | 0 <= j < |w.tries| :: w1.tries[j].name == w.tries[j].name
    requires |wh.tries| == |w.tries| && (forall j | 0 <= j < |w.tries| :: wh.tries[j].name == w.tries[j].name)
    requires |b1| <= |wh.ts| && |b1| <= |w1.ts| && wh.ts[..|b1|] == w1.ts[..|b1|]
    ensures Steps(ctx.host, ctx.p, c, n) == Running(Append(c2, k), s2)
    ensures Pending(ctx2, wh, b1, caught[l := x], x, m, s2)
  {
    hide TryVars, Lands, ValsAt, TopUnwind;
    var d := |w.tries|;
    var s := c.s;
    var save := SaveCode(ctx.cfg, l);
    AppendAssoc(save, c2, k);
    LandTries(ctx, ctx1, w1, wh, d, s);
    var s1 := s.(unwind := s.outer[l]);
    OneStep(ctx, c, Running(Append(save, Append(c2, k)), s1));
    hide RaiseRel, Append;
    SavedMore(caught, l, x, ctx.cfg.rethrown, s.saved);
    var n1;
    n1, s2 := SaveSteps(ctx, l, Append(c2, k), s1);
    n := 1 + n1;
    Chain(ctx, c, 1, Running(Append(save, Append(c2, k)), s1), n1, Running(Append(c2, k), s2));
    hide Steps, Step, SaveCode;
    RaiseFacts(ctx1, w1, d + 1, b1, caught, x, m, c);
  }

  /** The innermost try saved the target of the tries around it. */
  lemma LandTries(ctx: Ctx, ctx1: Ctx, w1: Writer, wh: Writer, d: nat, s: Store)
    requires |w1.tries| == d + 1 && |wh.tries| == d && forall j | 0 <= j < d :: wh.tries[j].name == w1.tries[j].name
    requires |ctx1.hs| == d + 1 && ctx1.hs[..d] == ctx.hs && TryVars(w1.tries[..d + 1], ctx1.hs, s.outer, s.bufs)
    ensures TryVars(wh.tries, ctx.hs, s.outer, s.bufs)
    ensures w1.tries[d].name in s.outer && s.outer[w1.tries[d].name] == TopUnwind(wh.tries)
  {
    assert w1.tries[..d + 1] == w1.tries;
    var inner := w1.tries[d];
    hide TryVars;
    TryVarsPrefix(w1.tries, ctx1.hs, s.outer, s.bufs, d);
    TryNames(w1.tries[..d], wh.tries, ctx1.hs, s.outer, s.bufs);
    assert ctx.hs <= ctx1.hs;
    TryVarsLess(wh.tries, ctx.hs, ctx1.hs, s.outer, s.bufs);
  }

  lemma RaiseFacts(ctx: Ctx, w: Writer, d: nat, below: seq<Value>, caught: Caught, x: Exn, m: Machine, c: Conf)
    requires RaiseRel(ctx, w, d, below, caught, x, m, c)
    ensures c.Escaped? || c.Running?
    ensures c.s.exn == x && x.tag < |ctx.cfg.env.tags| && |x.args| == |ctx.cfg.env.tags[x.tag]|
    ensures |below| <= |w.ts| && ValsAt(w.ts[..|below|], below, c.s.slots) && DataRel(ctx, m, c.s)
  {}

  lemma SavedMore(caught: Caught, l: string, x: Exn, rethrown: set<string>, saved: map<string, Exn>)
    requires SavedOk(caught, rethrown, saved)
    ensures SavedOk(caught[l := x], rethrown, if l in rethrown then saved[l := x] else saved)
  {}

  lemma SaveSteps(ctx: Ctx, l: string, k: Code, s: Store) returns (n: nat, s2: Store)
    ensures Steps(ctx.host, ctx.p, Running(Append(SaveCode(ctx.cfg, l), k), s), n) == Running(k, s2)
    ensures s2 == s.(saved := if l in ctx.cfg.rethrown then s.saved[l := s.exn] else s.saved)
  {
    if l in ctx.cfg.rethrown {
      n, s2 := 1, s.(saved := s.saved[l := s.exn]);
      AppendOne(SaveExn(l), k);
      OneStep(ctx, Running(Cons(SaveExn(l), k), s), Running(k, s2));
    } else {
      n, s2 := 0, s;
    }
  }

  // ----- delegation -----

  /** How many tries the delegate's target is inside of, seen from inside the try. */
  lemma DelegateTarget(w: Writer, w3: Writer, v: Var, l: string, used: set<string>, size: nat)
    requires StacksOk(w, size, used) && l !in used && l != "" && Resolve(Frames(w.labels), v).Some?
    requires |w3.labels| == |w.labels| + 1 && w3.labels[|w.labels|].frame.name == l
    requires forall i {:trigger w3.labels[i]} | 0 <= i < |w.labels| ::
        w3.labels[i] == w.labels[i].(used := w3.labels[i].used)
    ensures v.Name? ==>
              var i := FindLabel(w3.labels, v);
              i < |w.labels| && i == TargetIndex(w.labels, TargetOf(v))
                  && w3.labels[i] == w.labels[i].(used := w3.labels[i].used)
              && w.labels[i].frame.name == v.name
  {
    if v.Name? {
      FindNamedFrame(w.labels, v.name);
      var i := FindNamed(w.labels, v.name);
      assert w.labels[i].frame.name == v.name && (i > 0 ==> v.name in used) && (i == 0 ==> v.name == "");
      assert v.name != l;
      forall i | 0 <= i < |w.labels| ensures w3.labels[..|w.labels|][i].frame
          == w.labels[i].frame { var e := w3.labels[i]; }
      FindNamedGrown(w.labels, w3.labels[..|w.labels|], v.name);
    }
  }

  /** Landing in a delegating try: on to the handler that validation names. `w5` is the
      writer's state after the try. */
  lemma LandDelegate(ctx: Ctx, ctx1: Ctx, w: Writer, w1: Writer, w3: Writer, w5: Writer, v: Var, l: string,
      used: set<string>, below: seq<Value>, rest: seq<Value>, caught: Caught, x: Exn, m: Machine, k: Code, c: Conf)
    returns (n: nat, c1: Conf)
    requires StacksOk(w, |below|, used) && l !in used && l != "" && Resolve(Frames(w.labels), v).Some?
    requires RaiseRel(ctx1, w1, |w.tries| + 1, below + rest, caught, x, m, c)
    requires ctx1 == ctx.(ks := ctx1.ks, hs := ctx1.hs) && ctx.hs <= ctx1.hs && |ctx.hs| == |w.tries|
        && |ctx1.hs| == |w.tries| + 1
    requires ctx1.hs[|w.tries|] == Append(LowerDelegate(v, w3).0, k)
    requires JumpsOk(ctx, w5) && w5.tries == DropN(LowerDelegate(v, w3).1.tries, 1)
    requires |w1.tries| == |w3.tries| == |w.tries| + 1 && w1.tries[|w.tries|].name == w3.tries[|w.tries|].name
    requires forall j | 0 <= j < |w.tries| :: w1.tries[j].name == w3.tries[j].name == w.tries[j].name
    requires |below| <= |w.ts| && |below + rest| <= |w1.ts| && w.ts[..|below|] == w1.ts[..|below|]
    requires |w3.labels| == |w.labels| + 1 && w3.labels[|w.labels|].frame.name == l
    requires forall i {:trigger w3.labels[i]} | 0 <= i < |w.labels| ::
        w3.labels[i] == w.labels[i].(used := w3.labels[i].used)
    ensures Steps(ctx.host, ctx.p, c, n) == c1
    ensures RaiseRel(ctx, w, DelegateDepth(w.labels, TargetOf(v)), below, caught, x, m, c1)
  {
    hide RaiseRel;
    DelegateTarget(w, w3, v, l, used, |below|);
    var d := DelegateDepth(w.labels, TargetOf(v));
    if v.Name? {
      var i := TargetIndex(w.labels, TargetOf(v));
      assert w.labels[i].kind == TryKindL ==> w.labels[i].tryStackSize < |w.tries|;
      assert w.labels[i].tryStackSize <= |w.tries|;
    }
    DelegateSteps(ctx, v, w3, w5, d, k, c);
    n, c1 := DelegateRun(ctx, ctx1, w, w1, w3, d, below, rest, caught, x, m, v, k, c);
  }

  /** The code written for a delegate with target depth `d`. */
  predicate DelegatesTo(ctx: Ctx, code: Code, w: Writer, d: nat) {
    if d == 0 then w.tries != [] && code == Cons(UnwindOuter(w.tries[0].name), One(RtThrow))
    else d <= |w.tries| && d <= |ctx.hs| && code == One(Goto(CatchLabel(w.tries[d - 1].name)))
         && Find(CatchLabel(w.tries[d - 1].name), ctx.p.body, Nil) == Some(ctx.hs[d - 1])
  }

  lemma DelegateSteps(ctx: Ctx, v: Var, w3: Writer, w5: Writer, d: nat, k: Code, c: Conf)
    requires w3.tries != [] && JumpsOk(ctx, w5) && w5.tries == DropN(LowerDelegate(v, w3).1.tries, 1)
    requires v.Index? ==> d == 0
    requires v.Name? ==> var i := FindLabel(w3.labels, v);
               i < |w3.labels| && d < |w3.tries|
               && d == (if w3.labels[i].kind == TryKindL then w3.labels[i].tryStackSize + 1
                   else w3.labels[i].tryStackSize)
               && (w3.labels[i].kind == TryKindL ==> w3.tries[d - 1].name == v.name)
    ensures DelegatesTo(ctx, LowerDelegate(v, w3).0, w3, d)
  {
    if d > 0 {
      assert w5.tries[d - 1].used && w5.tries[d - 1].name == w3.tries[d - 1].name;
    }
  }

  lemma DelegateRun(ctx: Ctx, ctx1: Ctx, w: Writer, w1: Writer, w3: Writer, d: nat, below: seq<Value>,
      rest: seq<Value>, caught: Caught, x: Exn, m: Machine, v: Var, k: Code, c: Conf)
    returns (n: nat, c1: Conf)
    requires DelegatesTo(ctx, LowerDelegate(v, w3).0, w3, d) && d <= |w.tries|
    requires RaiseRel(ctx1, w1, |w.tries| + 1, below + rest, caught, x, m, c)
    requires ctx1 == ctx.(ks := ctx1.ks, hs := ctx1.hs) && ctx.hs <= ctx1.hs && |ctx.hs| == |w.tries|
        && |ctx1.hs| == |w.tries| + 1
    requires ctx1.hs[|w.tries|] == Append(LowerDelegate(v, w3).0, k)
    requires |w1.tries| == |w3.tries| == |w.tries| + 1 && w1.tries[|w.tries|].name == w3.tries[|w.tries|].name
    requires forall j | 0 <= j < |w.tries| :: w1.tries[j].name == w3.tries[j].name == w.tries[j].name
    requires |below| <= |w.ts| && |below + rest| <= |w1.ts| && w.ts[..|below|] == w1.ts[..|below|]
    ensures Steps(ctx.host, ctx.p, c, n) == c1
    ensures RaiseRel(ctx, w, d, below, caught, x, m, c1)
  {
    hide LowerDelegate, DelegatesTo, Append, Steps;
    var s := c.s;
    var code := LowerDelegate(v, w3).0;
    assert d == 0 ==> w1.tries[0].name == w3.tries[0].name && w1.tries[..0] == [];
    OuterTries(ctx, ctx1, w, w1, d, s);
    ValsPrefix(w1.ts[..|below + rest|], below + rest, s.slots, |below|);
    assert (below + rest)[..|below|] == below;
    assert w1.ts[..|below + rest|][..|below|] == w1.ts[..|below|];
    hide TryVars, ValsAt, TopUnwind;
    n, c1 := DelegateCode(ctx, code, w3, d, k, s);
  }

  lemma OuterTries(ctx: Ctx, ctx1: Ctx, w: Writer, w1: Writer, d: nat, s: Store)
    requires |w1.tries| == |w.tries| + 1 && d <= |w.tries|
        && forall j | 0 <= j < |w.tries| :: w1.tries[j].name == w.tries[j].name
    requires ctx.hs <= ctx1.hs && |ctx.hs| == |w.tries| && TryVars(w1.tries[..|w.tries| + 1], ctx1.hs, s.outer, s.bufs)
    ensures TryVars(w.tries[..d], ctx.hs, s.outer, s.bufs)
  {
    hide TryVars;
    assert w1.tries[..|w.tries| + 1] == w1.tries;
    TryVarsPrefix(w1.tries, ctx1.hs, s.outer, s.bufs, d);
    assert forall j | 0 <= j < d :: w1.tries[..d][j].name == w.tries[..d][j].name;
    TryNames(w1.tries[..d], w.tries[..d], ctx1.hs, s.outer, s.bufs);
    TryVarsLess(w.tries[..d], ctx.hs, ctx1.hs, s.outer, s.bufs);
  }

  lemma DelegateCode(ctx: Ctx, code: Code, w: Writer, d: nat, k: Code, s: Store)
    returns (n: nat, c: Conf)
    requires DelegatesTo(ctx, code, w, d)
    requires d == 0 ==> w.tries[0].name in s.outer && s.outer[w.tries[0].name] == Caller
    ensures Steps(ctx.host, ctx.p, Running(Append(code, k), s), n) == c
    ensures c == if d == 0 then Escaped(s.(unwind := Caller)) else Running(ctx.hs[d - 1], s)
  {
    if d == 0 {
      var u := w.tries[0].name;
      var s1 := s.(unwind := Caller);
      n, c := 2, Escaped(s1);
      AppendOne(RtThrow, k);
      assert Append(code, k) == Cons(UnwindOuter(u), Cons(RtThrow, k));
      TwoSteps(ctx, Running(Cons(UnwindOuter(u), Cons(RtThrow, k)), s), Running(Cons(RtThrow, k), s1), c);
    } else {
      var g := CatchLabel(w.tries[d - 1].name);
      n, c := 1, Running(ctx.hs[d - 1], s);
      AppendOne(Goto(g), k);
      GotoStep(ctx, g, k, s, ctx.hs[d - 1]);
    }
  }

  // ----- catch clauses -----

  /** The two ways past a clause with a tag. */
  lemma TagStep(ctx: Ctx, t: nat, a: Code, b: Code, k: Code, s: Store)
    ensures Steps(ctx.host, ctx.p, Running(Cons(IfTag(t, a, b), k), s), 1)
        == Running(Append(if s.exn.tag == t then a else b, k), s)
  {
    OneStep(ctx, Running(Cons(IfTag(t, a, b), k), s), Running(Append(if s.exn.tag == t then a else b, k), s));
  }

  /** A clause that takes the exception starts with its arguments on the stack. */
  lemma Unpack(ctx: Ctx, w0: Writer, w: Writer, w1: Writer, tys: seq<Type>, below: seq<Value>, caught: Caught, x: Exn,
      m: Machine, k: Code, s: Store)
    returns (n: nat, s1: Store)
    requires Pending(ctx, w, below, caught, x, m, s) && |tys| == |x.args|
    requires w1 == ResetTs(w, w0, tys) && |w0.ts| == |below|
    ensures Steps(ctx.host, ctx.p, Running(Append(UnpackCode(|below|, tys), k), s), n) == Running(k, s1)
    ensures Rel(ctx, w1, below, caught, m.(stack := x.args), s1)
  {
    SetSlotsHold(w.ts[..|below|], below, s, tys, x.args);
    s1 := SetSlots(s, SlotsFrom(|below|, tys), x.args);
    if tys == [] {
      n := 0;
    } else {
      n := 1;
      var st := UnpackExn(SlotsFrom(|below|, tys));
      AppendOne(st, k);
      OneStep(ctx, Running(Cons(st, k), s), Running(k, s1));
    }
  }

  /** A catch_all clause starts with nothing on the stack. */
  lemma CatchAll(ctx: Ctx, w0: Writer, w: Writer, w1: Writer, below: seq<Value>, caught: Caught, x: Exn, m: Machine,
      s: Store)
    requires Pending(ctx, w, below, caught, x, m, s) && w1 == ResetTs(w, w0, []) && |w0.ts| == |below|
    ensures Rel(ctx, w1, below, caught, m.(stack := []), s)
  {
    assert w1.ts == w.ts[..|below|];
    assert below + [] == below;
  }

  lemma PendingSame(ctx: Ctx, w: Writer, w1: Writer, below: seq<Value>, caught: Caught, x: Exn, m: Machine, s: Store)
    requires Pending(ctx, w, below, caught, x, m, s)
    requires |below| <= |w1.ts| && w1.ts[..|below|] == w.ts[..|below|]
    requires |w1.tries| == |w.tries| && forall j | 0 <= j < |w.tries| :: w1.tries[j].name == w.tries[j].name
    ensures Pending(ctx, w1, below, caught, x, m, s)
  {
    TryNames(w.tries, w1.tries, ctx.hs, s.outer, s.bufs);
  }

  // ----- what a try's body ends with -----

  /** Ends other than an exception: restore the enclosing target and leave the try. */
  lemma TryNoRaise(ctx: Ctx, ctx1: Ctx, w: Writer, w1: Writer, w2: Writer, w5: Writer, en: LabelEntry,
      below: seq<Value>, rest: seq<Value>, used: set<string>, caught: Caught, o: Outcome, kk: Code, k: Code, c0: Conf,
      n1: nat, fuel: nat, d: Conf)
    returns (n: nat, c: Conf)
    requires Opened(ctx, ctx1, w, w1, en, below, rest, used) && ctx1.ks[|w.labels|] == k && Lands(kk, k)
    requires d == Steps(ctx.host, ctx.p, c0, n1)
    requires Arrived(ctx1, w1, w2, below + rest, caught, o, Cons(UnwindOuter(en.frame.name), kk), n1, fuel, d)
    requires o.Next? ==> w5.ts == w2.ts
    requires w5.ts == w1.ts[..|below| + |rest|] + en.frame.sig
    requires |w2.tries| == |w.tries| + 1 && w2.tries[|w.tries|].name == en.frame.name
        && forall j | 0 <= j < |w.tries| :: w2.tries[j].name == w.tries[j].name
    requires |w5.tries| == |w.tries| && (forall j | 0 <= j < |w.tries| :: w5.tries[j].name == w.tries[j].name)
    requires !o.Raise? && !(o.Delegated? && o.to == ToLabel(en.frame.name))
    ensures c == Steps(ctx.host, ctx.p, c0, n)
    ensures Arrived(ctx, w, w5, below, caught, Exit(o, en.frame.name, rest, |en.frame.sig|), k, n, fuel, c)
  {
    hide Opened, Rel, BranchRel, RaiseRel, Lands, Steps;
    var l := en.frame.name;
    n, c := n1, d;
    if Passes(o, l) {
      LeavePass(ctx, ctx1, w, w1, w2, w5, en, below, rest, used, caught, o, Cons(UnwindOuter(l), kk), k, n1, fuel, d);
      assert Exit(o, l, rest, |en.frame.sig|) == o;
    } else if o.Next? {
      OpenedFacts(ctx, ctx1, w, w1, en, below, rest, used);
      EndTry(ctx, ctx1, w, w2, w5, l, below, rest, caught, o.m, kk, d.s);
      var d1 := Steps(ctx.host, ctx.p, d, 1);
      Chain(ctx, c0, n1, d, 1, d1);
      var n2 := RunLands(ctx, kk, k, d1.s);
      n, c := n1 + 1 + n2, Running(k, d1.s);
      Chain(ctx, c0, n1 + 1, d1, n2, c);
    } else {
      OpenedFacts(ctx, ctx1, w, w1, en, below, rest, used);
      OwnTarget(w, w1, en);
      OwnBranch(ctx, ctx1, w, w1, w5, en, below, rest, used, caught, o.m, c);
    }
  }

  /** An exception in a try's body, thrown or delegated to this try, is at its handler. */
  lemma TryRaised(ctx: Ctx, ctx1: Ctx, w: Writer, w1: Writer, w2: Writer, en: LabelEntry, below: seq<Value>,
      rest: seq<Value>, used: set<string>, caught: Caught, o: Outcome, k1: Code, n1: nat, fuel: nat, d: Conf)
    requires Opened(ctx, ctx1, w, w1, en, below, rest, used) && en.kind == TryKindL && |w1.tries| == |w.tries| + 1
    requires Arrived(ctx1, w1, w2, below + rest, caught, o, k1, n1, fuel, d)
    requires o.Raise? || (o.Delegated? && o.to == ToLabel(en.frame.name))
    ensures RaiseRel(ctx1, w1, |w.tries| + 1, below + rest, caught, o.x, o.m, d)
    ensures forall r :: Exit(o, en.frame.name, rest, r) == Raise(o.x, o.m)
  {
    hide RaiseRel;
    OwnTarget(w, w1, en);
    OpenedFacts(ctx, ctx1, w, w1, en, below, rest, used);
  }

  /** What holds at the start of a chain of clauses, the exception `x` pending. */
  ghost predicate Handling(ctx: Ctx, used: set<string>, ex: set<string>, w0: Writer, w: Writer, below: seq<Value>,
      caught: Caught, l: string, x: Exn, m: Machine, s: Store) {
    && w0.ts <= w.ts && |w0.ts| == |below| && !w0.dead
    && Pending(ctx, w, below, caught[l := x], x, m, s)
    && StacksOk(w, |below|, used)
    && ex <= caught.Keys + {l} <= used && CaughtOk(ctx.cfg.env, caught)
    && HostOk(ctx.cfg.env, ctx.host)
  }

  lemma ClauseReady(ctx: Ctx, used: set<string>, ex: set<string>, w0: Writer, tys: seq<Type>, w: Writer,
      below: seq<Value>, caught: Caught, l: string, x: Exn, m: Machine, m1: Machine, s: Store, s1: Store)
    requires Handling(ctx, used, ex, w0, w, below, caught, l, x, m, s)
    requires Rel(ctx, ResetTs(w, w0, tys), below, caught[l := x], m1, s1)
    ensures Ready(ctx, used, ex, w0.ts, tys, ResetTs(w, w0, tys), below, caught[l := x], m1, s1)
  {
    hide Rel, HostOk, TryVars, ValsAt, DataRel, SavedOk, TopUnwind;
    var w1 := ResetTs(w, w0, tys);
    assert w1 == w.(ts := w0.ts + tys, dead := false);
    assert Grown(w, w1);
    StacksGrown(w, w1, |below|, used);
    hide StacksOk, Grown;
    assert CaughtOk(ctx.cfg.env, caught[l := x]);
  }

  /** A clause that does not take the exception leaves the next one as it found it. */
  lemma HandlingNext(ctx: Ctx, used: set<string>, used1: set<string>, ex: set<string>, w0: Writer, w: Writer,
      w1: Writer, below: seq<Value>, caught: Caught, l: string, x: Exn, m: Machine, s: Store)
    requires Handling(ctx, used, ex, w0, w, below, caught, l, x, m, s) && Grown(w, w1) && w0.ts <= w1.ts
        && used <= used1
    ensures Handling(ctx, used1, ex, w0, w1, below, caught, l, x, m, s)
  {
    hide Pending, HostOk, CaughtOk;
    forall j | 0 <= j < |w.tries| ensures w1.tries[j].name == w.tries[j].name { var t := w1.tries[j]; }
    assert w1.ts[..|below|] == w0.ts == w.ts[..|below|];
    PendingSame(ctx, w, w1, below, caught[l := x], x, m, s);
    StacksGrown(w, w1, |below|, used);
    StacksMore(w1, |below|, used, used1);
  }

  /** No clause takes the exception: it is thrown on from outside the try. */
  lemma SimUncaught(ctx: Ctx, used: set<string>, ex: set<string>, w0: Writer, w: Writer, w1: Writer,
      below: seq<Value>, caught: Caught, l: string, x: Exn, m: Machine, k: Code, s: Store, fuel: nat)
    returns (n: nat, c: Conf)
    requires Handling(ctx, used, ex, w0, w, below, caught, l, x, m, s) && JumpsOk(ctx, LowerThrow(w).1)
    ensures c == Steps(ctx.host, ctx.p, Running(Append(LowerThrow(w).0, k), s), n)
    ensures Arrived(ctx, w, w1, below, caught[l := x], Raise(x, m), k, n, fuel, c)
  {
    hide Pending, RaiseRel, LowerThrow, StacksOk, HostOk;
    n, c := SimThrow(ctx, w, below, caught[l := x], x, m, k, s);
  }
}

/** Entering and leaving a block: where its labels are found, and how an outcome inside it
    reads from outside. */
module LoweringScope {
  import opened Ir
  import opened Wasm
  import opened Typing
  import opened CLang
  import opened Lowering
  import opened LoweringShape
  import opened LoweringRel
  import opened LoweringInstr
  import opened LoweringBranch

  // ----- finding the labels of the parts of a piece of code -----

  lemma LocatedAppend(p: Prog, a: Code, b: Code, k: Code)
    requires Located(p, Append(a, b), k) && Labels(a) !! Labels(b)
    ensures Located(p, a, Append(b, k)) && Located(p, b, k)
  {
    LabelsAppend(a, b);
    forall l | l in Labels(a) + Labels(b)
      ensures l in Labels(a) ==> Find(l, p.body, Nil) == Find(l, a, Append(b, k))
      ensures l in Labels(b) ==> Find(l, p.body, Nil) == Find(l, b, k)
    {
      FindAppend(l, a, b, k);
      FindLabels(l, a, Append(b, k));
      assert l in Labels(Append(a, b));
    }
  }

  /** The two arms of a statement, and the code after it. */
  lemma LocatedArms(p: Prog, st: Stmt, t: Code, k: Code)
    requires st.IfElse? || st.IfTag? || st.IfTry?
    requires Located(p, Cons(st, t), k)
    requires Labels(st.thn) !! Labels(st.els) && Labels(st.thn) !! Labels(t) && Labels(st.els) !! Labels(t)
    ensures Located(p, st.thn, Append(t, k)) && Located(p, st.els, Append(t, k)) && Located(p, t, k)
  {
    forall l | l in Labels(st.thn) + Labels(st.els) + Labels(t)
      ensures l in Labels(st.thn) ==> Find(l, p.body, Nil) == Find(l, st.thn, Append(t, k))
      ensures l in Labels(st.els) ==> Find(l, p.body, Nil) == Find(l, st.els, Append(t, k))
      ensures l in Labels(t) ==> Find(l, p.body, Nil) == Find(l, t, k)
    {
      FindLabels(l, st.thn, Append(t, k));
      FindLabels(l, st.els, Append(t, k));
      assert l in Labels(Cons(st, t));
      assert Find(l, Cons(st, t), k) == Else(Else(Find(l, st.thn, Append(t, k)), Find(l, st.els, Append(t, k))),
          Find(l, t, k));
    }
  }

  lemma LocatedTail(p: Prog, st: Stmt, t: Code, k: Code)
    requires Located(p, Cons(st, t), k) && StmtLabels(st) !! Labels(t)
    ensures Located(p, t, k)
  {
    forall l | l in Labels(t) ensures Find(l, p.body, Nil) == Find(l, t, k) {
      FindStmtLabels(l, st, Append(t, k));
      assert l in Labels(Cons(st, t));
    }
  }

  lemma LocatedHere(p: Prog, l: CLabel, closed: bool, t: Code, k: Code)
    requires Located(p, Cons(LabelHere(l, closed), t), k)
    ensures Find(l, p.body, Nil) == Some(Append(t, k))
  {
    assert l in Labels(Cons(LabelHere(l, closed), t));
    assert Find(l, Cons(LabelHere(l, closed), t), k) == Some(Append(t, k));
  }

  lemma WithinDisjoint(a: set<CLabel>, b: set<CLabel>, na: set<string>, nb: set<string>)
    requires Within(a, na) && Within(b, nb) && na !! nb
    ensures a !! b
  {
  }

  // ----- composing runs -----

  lemma Chain(ctx: Ctx, a: Conf, n1: nat, b: Conf, n2: nat, c: Conf)
    requires Steps(ctx.host, ctx.p, a, n1) == b && Steps(ctx.host, ctx.p, b, n2) == c
    ensures Steps(ctx.host, ctx.p, a, n1 + n2) == c
  {
    StepsAdd(ctx.host, ctx.p, a, n1, n2);
  }

  /** Stepping over a label that may stand before `k`. */
  lemma RunLands(ctx: Ctx, c: Code, k: Code, s: Store) returns (n: nat)
    requires Lands(c, k)
    ensures Steps(ctx.host, ctx.p, Running(c, s), n) == Running(k, s)
  {
    if c == k {
      n := 0;
    } else {
      n := 1;
      OneStep(ctx, Running(c, s), Running(k, s));
    }
  }

  // ----- the same state seen with other marks -----

  /** An outcome does not depend on marks, nor on the operands above `below`. */
  lemma ArrivedEarlier(ctx: Ctx, tb: seq<Type>, w: Writer, w1: Writer, w2: Writer, used: set<string>,
      below: seq<Value>, caught: Caught, o: Outcome, k: Code, n: nat, n1: nat, fuel: nat, c: Conf)
    requires Grown(w, w1) && tb <= w.ts && tb <= w1.ts && |tb| == |below| && StacksOk(w, |below|, used)
    requires Arrived(ctx, w1, w2, below, caught, o, k, n, fuel, c) && n1 >= n
    ensures Arrived(ctx, w, w2, below, caught, o, k, n1, fuel, c)
  {
    match o
    case Branch(to, m) => BranchEarlier(ctx, tb, w, w1, used, to, below, caught, m, c);
    case Raise(x, m) => RaiseEarlier(ctx, tb, w, w1, |w.tries|, below, caught, x, m, c);
    case Delegated(to, x, m) =>
      DepthSame(w, w1, to);
      RaiseEarlier(ctx, tb, w, w1, DelegateDepth(w.labels, to), below, caught, x, m, c);
    case _ =>
  }

  lemma BranchEarlier(ctx: Ctx, tb: seq<Type>, w: Writer, w1: Writer, used: set<string>, to: Target,
      below: seq<Value>, caught: Caught, m: Machine, c: Conf)
    requires Grown(w, w1) && tb <= w.ts && tb <= w1.ts && |tb| == |below| && StacksOk(w, |below|, used)
    requires BranchRel(ctx, w1, TargetIndex(w1.labels, to), below, caught, m, c)
    ensures BranchRel(ctx, w, TargetIndex(w.labels, to), below, caught, m, c)
  {
    BranchGrown(ctx, w.(ts := w1.ts), w1, to, below, caught, m, c);
    var i := TargetIndex(w.labels, to);
    var t := w.labels[i].typeStackSize;
    assert w.ts[..t] == tb[..t] == w1.ts[..t];
  }

  lemma RaiseEarlier(ctx: Ctx, tb: seq<Type>, w: Writer, w1: Writer, d: nat, below: seq<Value>, caught: Caught,
      x: Exn, m: Machine, c: Conf)
    requires Grown(w, w1) && tb <= w.ts && tb <= w1.ts && |tb| == |below|
    requires RaiseRel(ctx, w1, d, below, caught, x, m, c)
    ensures RaiseRel(ctx, w, d, below, caught, x, m, c)
  {
    assert w.ts[..|below|] == tb == w1.ts[..|below|];
    forall j | 0 <= j < d ensures w1.tries[..d][j].name
        == w.tries[..d][j].name { assert w1.tries[j].name == w.tries[j].name; }
    TryNames(w.tries[..d], w1.tries[..d], ctx.hs, c.s.outer, c.s.bufs);
  }

  lemma DepthSame(w: Writer, w1: Writer, to: Target)
    requires Grown(w, w1)
    ensures DelegateDepth(w1.labels, to) == DelegateDepth(w.labels, to)
  {
    SameTarget(w, w1, to);
    var i := TargetIndex(w.labels, to);
    if i < |w.labels| { assert w1.labels[i] == w.labels[i].(used := w1.labels[i].used); }
  }

  // ----- entering a block -----

  lemma GrownReset(w: Writer, w0: Writer, ts: seq<Type>)
    ensures Grown(w, ResetTs(w, w0, ts))
  {}

  /** The operands of a block become the stack of its body. */
  lemma EnterRel(ctx: Ctx, ctx1: Ctx, tb: seq<Type>, ts: seq<Type>, params: seq<Type>, w: Writer, w1: Writer,
      below: seq<Value>, caught: Caught, m: Machine, s: Store)
    requires EndsWith(ts, params) && w.ts == tb + ts && |tb| == |below|
    requires Rel(ctx, w, below, caught, m, s)
    requires ctx1 == ctx.(ks := ctx1.ks) && w1.tries == w.tries
    requires w1.ts == DropN(w.ts, |params|) + params
    ensures var n := |params|;
            var b1 := below + DropN(m.stack, n);
            && DropN(w.ts, n) == tb + ts[..|ts| - n] && |DropN(w.ts, n)| == |b1|
            && n <= |m.stack| && b1 + TopN(m.stack, n) == below + m.stack
            && Rel(ctx1, w1, b1, caught, m.(stack := TopN(m.stack, n)), s)
  {
    hide Rel;
    var n := |params|;
    RelHeights(ctx, w, below, caught, m, s);
    assert ts == ts[..|ts| - n] + params;
    assert DropN(w.ts, n) == tb + ts[..|ts| - n] && w1.ts == w.ts;
    assert below + DropN(m.stack, n) + TopN(m.stack, n) == below + m.stack;
    RelMoved(ctx, ctx1, w, w1, below, below + DropN(m.stack, n), caught, m, m.(stack := TopN(m.stack, n)), s);
  }

  /** Where the values below end and the stack begins does not matter. */
  lemma RelMoved(ctx: Ctx, ctx1: Ctx, w: Writer, w1: Writer, below: seq<Value>, b1: seq<Value>, caught: Caught,
      m: Machine, m1: Machine, s: Store)
    requires Rel(ctx, w, below, caught, m, s)
    requires ctx1 == ctx.(ks := ctx1.ks) && w1.ts == w.ts && w1.tries == w.tries
    requires m1 == m.(stack := m1.stack) && b1 + m1.stack == below + m.stack
    ensures Rel(ctx1, w1, b1, caught, m1, s)
  {
    hide ValsAt, TryVars, SavedOk;
  }

  lemma EnterStacks(w: Writer, w0: Writer, w1: Writer, f: Frame, kind: LabelKind, params: seq<Type>, size: nat,
      used: set<string>)
    requires StacksOk(w, size, used) && w0 == w.(ts := w0.ts) && size <= |w0.ts| && f.name !in used
    requires w1 == if kind == TryKindL then EnterTry(w0, f, params) else Enter(w0, f, kind, params)
    ensures StacksOk(w1, |w0.ts|, used + {f.name})
  {
    forall i | 0 <= i < |w.labels| ensures w1.labels[i] == w.labels[i] {}
    forall i | 0 <= i < |w.tries| ensures w1.tries[i] == w.tries[i] {}
    assert w1.labels[0] == w.labels[0];
  }

  lemma StacksMore(w: Writer, size: nat, used: set<string>, more: set<string>)
    requires StacksOk(w, size, used) && used <= more
    ensures StacksOk(w, size, more)
  {}

  /** Jump targets while a block's label is open, from those known once it is closed. */
  lemma JumpsInner(ctx: Ctx, ctx1: Ctx, kb: Code, w2: Writer, w3: Writer)
    requires JumpsOk(ctx, w3) && |w2.labels| == |w3.labels| + 1 && |w2.labels| >= 2
    requires w3.labels == DropN(w2.labels, 1) && w3.tries == w2.tries && ctx1 == ctx.(ks := ctx.ks + [kb])
    requires var l := w2.labels[|w3.labels|]; l.used ==> Find(UserLabel(l.frame.name), ctx.p.body, Nil) == Some(kb)
    ensures JumpsOk(ctx1, w2)
  {
    forall i | 0 <= i < |w2.labels| && w2.labels[i].used
      ensures Find(EntryLabel(w2.labels, i), ctx.p.body, Nil) == Some(ctx1.ks[i])
    {
      if i < |w3.labels| {
        assert w3.labels[i] == w2.labels[i] && EntryLabel(w3.labels, i) == EntryLabel(w2.labels, i);
      }
    }
  }

  // ----- leaving a block -----

  /** `w1` is the writer's state inside a block labelled `e`, opened where it was `w`. */
  ghost predicate Opened(ctx: Ctx, ctx1: Ctx, w: Writer, w1: Writer, e: LabelEntry, below: seq<Value>,
      rest: seq<Value>, used: set<string>) {
    && ctx1 == ctx.(ks := ctx1.ks, hs := ctx1.hs) && |ctx1.ks| == |ctx.ks| + 1 && ctx.ks <= ctx1.ks && ctx.hs <= ctx1.hs
    && |ctx.ks| == |w.labels| && |ctx.hs| == |w.tries|
    && w1.labels == w.labels + [e] && w.tries <= w1.tries
    && StacksOk(w, |below|, used) && e.frame.name !in used && e.frame.name != ""
    && |below| <= |w.ts| && |below| + |rest| <= |w1.ts| && w.ts[..|below|] == w1.ts[..|below|]
    && e.typeStackSize == |below| + |rest| && e.tryStackSize == |w.tries|
  }

  /** A block's label is not found under any other name. */
  lemma OtherTarget(w: Writer, w1: Writer, e: LabelEntry, to: Target)
    requires w1.labels == w.labels + [e] && w.labels != [] && to != ToLabel(e.frame.name)
    ensures TargetIndex(w1.labels, to) == TargetIndex(w.labels, to) < |w.labels|
    ensures DelegateDepth(w1.labels, to) == DelegateDepth(w.labels, to)
  {
    if to.ToLabel? { assert w1.labels[..|w1.labels| - 1] == w.labels; }
    assert w1.labels[TargetIndex(w.labels, to)] == w.labels[TargetIndex(w.labels, to)];
  }

  /** Outcomes that pass through the block. */
  predicate Passes(o: Outcome, l: string) {
    match o
    case Branch(to, _) => to != ToLabel(l)
    case Delegated(to, _, _) => to != ToLabel(l)
    case Trap(_) => true
    case OutOfFuel(_) => true
    case _ => false
  }

  lemma LeavePass(ctx: Ctx, ctx1: Ctx, w: Writer, w1: Writer, w2: Writer, w3: Writer, e: LabelEntry,
      below: seq<Value>, rest: seq<Value>, used: set<string>, caught: Caught, o: Outcome, k1: Code, k: Code, n: nat,
      fuel: nat, c: Conf)
    requires Opened(ctx, ctx1, w, w1, e, below, rest, used) && Passes(o, e.frame.name)
    requires Arrived(ctx1, w1, w2, below + rest, caught, o, k1, n, fuel, c)
    ensures Arrived(ctx, w, w3, below, caught, o, k, n, fuel, c)
  {
    match o
    case Branch(to, m) =>
      OtherTarget(w, w1, e, to);
      LeaveBranch(ctx, ctx1, w, w1, e, below, rest, used, TargetIndex(w.labels, to), caught, m, c);
    case Delegated(to, x, m) =>
      OtherTarget(w, w1, e, to);
      var i := TargetIndex(w.labels, to);
      assert w.labels[i].tryStackSize <= |w.tries|;
      LeaveRaise(ctx, ctx1, w, w1, e, below, rest, used, DelegateDepth(w.labels, to), caught, x, m, c);
    case _ =>
  }

  lemma LeaveBranch(ctx: Ctx, ctx1: Ctx, w: Writer, w1: Writer, e: LabelEntry, below: seq<Value>, rest: seq<Value>,
      used: set<string>, i: nat, caught: Caught, m: Machine, c: Conf)
    requires Opened(ctx, ctx1, w, w1, e, below, rest, used) && i < |w.labels|
    requires BranchRel(ctx1, w1, i, below + rest, caught, m, c)
    ensures BranchRel(ctx, w, i, below, caught, m, c)
  {
    var l := w.labels[i];
    assert w1.labels[i] == l && l.typeStackSize <= |below| && l.tryStackSize <= |w.tries|;
    assert (below + rest)[..l.typeStackSize] == below[..l.typeStackSize];
    assert w1.ts[..|below|][..l.typeStackSize] == w.ts[..l.typeStackSize] == w1.ts[..l.typeStackSize];
    assert w1.tries[..l.tryStackSize] == w.tries[..l.tryStackSize];
    TryVarsLess(w.tries[..l.tryStackSize], ctx.hs, ctx1.hs, c.s.outer, c.s.bufs);
  }

  lemma TryVarsLess(tries: seq<TryEntry>, hs: seq<Code>, hs1: seq<Code>, outer: map<string, Unwind>, bufs: map<string,
      Code>)
    requires hs <= hs1 && |tries| <= |hs|
    ensures TryVars(tries, hs, outer, bufs) <==> TryVars(tries, hs1, outer, bufs)
  {}

  lemma LeaveRaise(ctx: Ctx, ctx1: Ctx, w: Writer, w1: Writer, e: LabelEntry, below: seq<Value>, rest: seq<Value>,
      used: set<string>, d: nat, caught: Caught, x: Exn, m: Machine, c: Conf)
    requires Opened(ctx, ctx1, w, w1, e, below, rest, used) && d <= |w.tries|
    requires RaiseRel(ctx1, w1, d, below + rest, caught, x, m, c)
    ensures RaiseRel(ctx, w, d, below, caught, x, m, c)
  {
    assert (below + rest)[..|below|] == below;
    var n := |below| + |rest|;
    ValsPrefix(w1.ts[..n], below + rest, c.s.slots, |below|);
    assert w1.ts[..n][..|below|] == w1.ts[..|below|] == w.ts[..|below|];
    assert w1.tries[..d] == w.tries[..d];
    TryVarsLess(w.tries[..d], ctx.hs, ctx1.hs, c.s.outer, c.s.bufs);
  }

  /** Being at a point depends on the writer only through its type stack and open tries. */
  lemma RelSame(ctx: Ctx, ctx1: Ctx, w: Writer, w1: Writer, below: seq<Value>, rest: seq<Value>, caught: Caught,
      m: Machine, s: Store)
    requires Rel(ctx1, w1, below + rest, caught, m, s) && w.ts == w1.ts
    requires |w.tries| == |w1.tries| && forall j | 0 <= j < |w.tries| :: w1.tries[j].name == w.tries[j].name
    requires ctx1 == ctx.(ks := ctx1.ks, hs := ctx1.hs) && ctx.hs <= ctx1.hs && |w.tries| <= |ctx.hs|
    ensures Rel(ctx, w, below, caught, m.(stack := rest + m.stack), s)
  {
    assert below + rest + m.stack == below + (rest + m.stack);
    TryNames(w.tries, w1.tries, ctx1.hs, s.outer, s.bufs);
    TryVarsLess(w.tries, ctx.hs, ctx1.hs, s.outer, s.bufs);
  }

  /** A branch to the block's own label is at its end, with the label's values. */
  lemma OwnBranch(ctx: Ctx, ctx1: Ctx, w: Writer, w1: Writer, w3: Writer, e: LabelEntry, below: seq<Value>,
      rest: seq<Value>, used: set<string>, caught: Caught, m: Machine, c: Conf)
    requires Opened(ctx, ctx1, w, w1, e, below, rest, used)
    requires BranchRel(ctx1, w1, |w.labels|, below + rest, caught, m, c)
    requires w3.ts == w1.ts[..|below| + |rest|] + e.frame.sig
    requires |w3.tries| == |w.tries| && forall j | 0 <= j < |w.tries| :: w3.tries[j].name == w.tries[j].name
    ensures c.Running? && c.code == ctx1.ks[|w.labels|] && |e.frame.sig| <= |m.stack|
    ensures Rel(ctx, w3, below, caught, m.(stack := rest + TopN(m.stack, |e.frame.sig|)), c.s)
  {
    hide StacksOk, BranchRel, Rel;
    var m1 := m.(stack := TopN(m.stack, |e.frame.sig|));
    var there := w1.(ts := w3.ts, tries := w.tries);
    assert (below + rest)[..|below| + |rest|] == below + rest;
    assert w1.tries[..|w.tries|] == w.tries;
    BranchArrives(ctx1, w1, |w.labels|, below + rest, caught, m, c);
    RelSame(ctx, ctx1, w3, there, below, rest, caught, m1, c.s);
  }

  /** At a label, the operands stand on its base and its tries are open. */
  lemma BranchArrives(ctx: Ctx, w: Writer, i: nat, below: seq<Value>, caught: Caught, m: Machine, c: Conf)
    requires BranchRel(ctx, w, i, below, caught, m, c)
    ensures i < |w.labels| && i < |ctx.ks|
    ensures var l := w.labels[i];
            && c.Running? && c.code == ctx.ks[i] && |l.frame.sig| <= |m.stack|
            && l.typeStackSize <= |w.ts| && l.typeStackSize <= |below| && l.tryStackSize <= |w.tries|
            && Rel(ctx, w.(ts := w.ts[..l.typeStackSize] + l.frame.sig, tries := w.tries[..l.tryStackSize]),
                   below[..l.typeStackSize], caught, m.(stack := TopN(m.stack, |l.frame.sig|)), c.s)
  {
    hide ValsAt, TryVars, SavedOk;
  }

  lemma OwnTarget(w: Writer, w1: Writer, e: LabelEntry)
    requires w1.labels == w.labels + [e]
    ensures TargetIndex(w1.labels, ToLabel(e.frame.name)) == |w.labels|
  {}

  /** Leaving a block that is not a try's body: whatever its body does, the code after it is
      in the state that leaving the block calls for. */
  lemma Leave(ctx: Ctx, ctx1: Ctx, w: Writer, w1: Writer, w2: Writer, w3: Writer, e: LabelEntry, below: seq<Value>,
      rest: seq<Value>, used: set<string>, caught: Caught, o: Outcome, k1: Code, k: Code, arity: nat, n: nat,
      fuel: nat, c: Conf)
    returns (n1: nat, c1: Conf)
    requires Opened(ctx, ctx1, w, w1, e, below, rest, used) && e.kind != TryKindL && w1.tries == w.tries
    requires Arrived(ctx1, w1, w2, below + rest, caught, o, k1, n, fuel, c)
    requires o.Next? ==> Lands(k1, k) && w3.ts == w2.ts
    requires o.Branch? && o.to == ToLabel(e.frame.name) ==>
               ctx1.ks[|w.labels|] == k && arity == |e.frame.sig| && w3.ts == w1.ts[..|below| + |rest|] + e.frame.sig
    requires |w3.tries| == |w.tries| && forall j | 0 <= j < |w.tries| :: w3.tries[j].name == w.tries[j].name
    requires |w2.tries| == |w.tries| && forall j | 0 <= j < |w.tries| :: w2.tries[j].name == w.tries[j].name
    ensures c1 == Steps(ctx.host, ctx.p, c, n1)
    ensures Arrived(ctx, w, w3, below, caught, Exit(o, e.frame.name, rest, arity), k, n + n1, fuel, c1)
  {
    n1, c1 := 0, c;
    assert Steps(ctx.host, ctx.p, c, 0) == c;
    if Passes(o, e.frame.name) {
      assert Exit(o, e.frame.name, rest, arity) == o;
      LeavePass(ctx, ctx1, w, w1, w2, w3, e, below, rest, used, caught, o, k1, k, n, fuel, c);
    } else {
      OwnTarget(w, w1, e);
      hide Steps, Opened, StacksOk;
      match o
      case Next(m) =>
        n1 := RunLands(ctx, k1, k, c.s);
        c1 := Running(k, c.s);
        OpenedFacts(ctx, ctx1, w, w1, e, below, rest, used);
        RelSame(ctx, ctx1, w3, w2, below, rest, caught, m, c.s);
      case Branch(to, m) =>
        OwnBranch(ctx, ctx1, w, w1, w3, e, below, rest, used, caught, m, c);
      case Raise(x, m) =>
        LeaveRaise(ctx, ctx1, w, w1, e, below, rest, used, |w.tries|, caught, x, m, c);
      case Delegated(to, x, m) =>
        OpenedFacts(ctx, ctx1, w, w1, e, below, rest, used);
        LeaveRaise(ctx, ctx1, w, w1, e, below, rest, used, |w.tries|, caught, x, m, c);
    }
  }

  lemma OpenedFacts(ctx: Ctx, ctx1: Ctx, w: Writer, w1: Writer, e: LabelEntry, below: seq<Value>, rest: seq<Value>,
      used: set<string>)
    requires Opened(ctx, ctx1, w, w1, e, below, rest, used)
    ensures ctx1 == ctx.(ks := ctx1.ks, hs := ctx1.hs) && ctx.hs <= ctx1.hs && |w.tries| <= |ctx.hs|
    ensures w1.labels == w.labels + [e] && e.tryStackSize == |w.tries|
  {}

  /** Forgetting an exception that only the block just left could rethrow. */
  lemma Forget(ctx: Ctx, w: Writer, w1: Writer, below: seq<Value>, caught: Caught, l: string, x: Exn, o: Outcome,
      k: Code, n: nat, fuel: nat, c: Conf)
    requires Arrived(ctx, w, w1, below, caught[l := x], o, k, n, fuel, c) && l !in caught
    ensures Arrived(ctx, w, w1, below, caught, o, k, n, fuel, c)
  {
    if o.Next? || o.Branch? || o.Raise? || o.Delegated? { SavedLess(caught, l, x, ctx.cfg.rethrown, c.s.saved); }
  }

  lemma SavedLess(caught: Caught, l: string, x: Exn, rethrown: set<string>, saved: map<string, Exn>)
    requires l !in caught
    ensures SavedOk(caught[l := x], rethrown, saved) ==> SavedOk(caught, rethrown, saved)
  {
    if SavedOk(caught[l := x], rethrown, saved) {
      forall n | n in caught && n in rethrown ensures n in saved && saved[n] == caught[n] {
        assert caught[l := x][n] == caught[n];
      }
    }
  }
}

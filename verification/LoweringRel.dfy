/** When a C state stands for a WebAssembly state, and what each outcome looks like in C. */
module LoweringRel {
  import opened Ir
  import opened Wasm
  import opened CLang
  import opened Lowering

  /** The program being run, with the code to resume at each open label and for each open try. */
  datatype Ctx = Ctx(host: Host, p: Prog, cfg: Config, ks: seq<Code>, hs: seq<Code>)

  // ----- data -----

  ghost predicate ValsAt(ts: seq<Type>, vs: seq<Value>, slots: map<(int, Type), Value>) {
    |ts| == |vs| && forall i {:trigger vs[i]} {:trigger ts[i]} | 0 <= i < |ts| ::
        (i, ts[i]) in slots && slots[(i, ts[i])] == vs[i]
  }

  function RecordOf(base: nat, e: MemEvent): Record {
    Record(e.Stored?, (base + e.addr) % 0x1_0000_0000_0000_0000)
  }

  /** The records an instrumented run prints for a trace of memory accesses. */
  function Render(base: nat, log: seq<MemEvent>): (rs: seq<Record>)
    ensures |rs| == |log|
  {
    if log == [] then [] else Render(base, log[..|log| - 1]) + [RecordOf(base, log[|log| - 1])]
  }

  ghost predicate DataRel(ctx: Ctx, m: Machine, s: Store) {
    && s.locals == m.locals
    && s.world == m.world
    && s.out == s.file == (if ctx.cfg.trace then Render(ctx.p.base, m.log) else [])
  }

  // ----- exception machinery -----

  /** The unwind target while the given tries are open. */
  function TopUnwind(tries: seq<TryEntry>): Unwind {
    if tries == [] then Caller else Buffer(tries[|tries| - 1].name)
  }

  /** Code that is `h`, perhaps behind one label. */
  predicate Lands(c: Code, h: Code) {
    c == h || (c.Cons? && c.hd.LabelHere? && c.tl == h)
  }

  /** The C variables of the open tries: each saved its enclosing target, and its jump
      buffer leads to its handler. */
  ghost predicate TryVars(tries: seq<TryEntry>, hs: seq<Code>, outer: map<string, Unwind>, bufs: map<string, Code>) {
    && |hs| >= |tries|
    && forall j {:trigger tries[j]} | 0 <= j < |tries| ::
         && tries[j].name in outer && outer[tries[j].name] == TopUnwind(tries[..j])
         && tries[j].name in bufs && Lands(bufs[tries[j].name], hs[j])
  }

  ghost predicate SavedOk(caught: Caught, rethrown: set<string>, saved: map<string, Exn>) {
    forall n | n in caught && n in rethrown :: n in saved && saved[n] == caught[n]
  }

  /** The C state at a point where the writer's state is `w` and the WebAssembly machine,
      inside blocks above the values `below`, is `m`. */
  ghost predicate Rel(ctx: Ctx, w: Writer, below: seq<Value>, caught: Caught, m: Machine, s: Store) {
    && ValsAt(w.ts, below + m.stack, s.slots)
    && DataRel(ctx, m, s)
    && s.unwind == TopUnwind(w.tries)
    && TryVars(w.tries, ctx.hs, s.outer, s.bufs)
    && SavedOk(caught, ctx.cfg.rethrown, s.saved)
  }

  // ----- outcomes -----

  function TargetIndex(labels: seq<LabelEntry>, to: Target): nat {
    match to
    case ToFunc => 0
    case ToLabel(n) => FindNamed(labels, n)
  }

  /** A branch arrived at label `i`: its operands sit on the label's base, and the unwind
      target is that of the tries open there. */
  ghost predicate BranchRel(ctx: Ctx, w: Writer, i: nat, below: seq<Value>, caught: Caught, m: Machine, c: Conf) {
    && i < |w.labels| && i < |ctx.ks|
    && c.Running? && c.code == ctx.ks[i]
    && var l := w.labels[i];
       && l.typeStackSize <= |w.ts| && l.typeStackSize <= |below| && l.tryStackSize <= |w.tries|
       && |l.frame.sig| <= |m.stack|
       && ValsAt(w.ts[..l.typeStackSize] + l.frame.sig, below[..l.typeStackSize] + TopN(m.stack, |l.frame.sig|),
           c.s.slots)
       && DataRel(ctx, m, c.s)
       && c.s.unwind == TopUnwind(w.tries[..l.tryStackSize])
       && TryVars(w.tries[..l.tryStackSize], ctx.hs, c.s.outer, c.s.bufs)
       && SavedOk(caught, ctx.cfg.rethrown, c.s.saved)
  }

  /** An exception reached the handler of the innermost of the first `d` tries, or the caller. */
  ghost predicate RaiseRel(ctx: Ctx, w: Writer, d: nat, below: seq<Value>, caught: Caught, x: Exn, m: Machine,
      c: Conf) {
    && d <= |w.tries| && d <= |ctx.hs|
    && (if d == 0 then c.Escaped? && c.s.unwind == Caller else c.Running? && c.code == ctx.hs[d - 1])
    && c.s.exn == x
    && |below| <= |w.ts| && ValsAt(w.ts[..|below|], below, c.s.slots)
    && DataRel(ctx, m, c.s)
    && TryVars(w.tries[..d], ctx.hs, c.s.outer, c.s.bufs)
    && SavedOk(caught, ctx.cfg.rethrown, c.s.saved)
    && x.tag < |ctx.cfg.env.tags| && |x.args| == |ctx.cfg.env.tags[x.tag]|
  }

  /** How many tries an exception delegated to a label is still inside of. */
  function DelegateDepth(labels: seq<LabelEntry>, to: Target): nat {
    var i := TargetIndex(labels, to);
    if to.ToFunc? || i >= |labels| then 0
    else if labels[i].kind == TryKindL then labels[i].tryStackSize + 1
    else labels[i].tryStackSize
  }

  /** The C state `c`, reached from the start of some code after `n` steps, is the right one
      for the outcome of that code. */
  ghost predicate Arrived(ctx: Ctx, w: Writer, w1: Writer, below: seq<Value>, caught: Caught, o: Outcome, k: Code,
      n: nat, fuel: nat, c: Conf) {
    match o
    case Next(m) => c.Running? && c.code == k && Rel(ctx, w1, below, caught, m, c.s)
    case Branch(to, m) => n >= 1 && BranchRel(ctx, w, TargetIndex(w.labels, to), below, caught, m, c)
    case Raise(x, m) => RaiseRel(ctx, w, |w.tries|, below, caught, x, m, c)
    case Delegated(to, x, m) => RaiseRel(ctx, w, DelegateDepth(w.labels, to), below, caught, x, m, c)
    case Trap(m) => c.Aborted? && DataRel(ctx, m, c.s)
    case OutOfFuel(m) => c.Running? && n >= fuel && DataRel(ctx, m, c.s)
  }

  // ----- static conditions -----

  /** The label written for the `i`th entry of a label stack. */
  function EntryLabel(labels: seq<LabelEntry>, i: nat): CLabel
    requires i < |labels|
  {
    if i == 0 then FuncLabel else UserLabel(labels[i].frame.name)
  }

  /** Every label that has been jumped to is where the context says it is. */
  ghost predicate JumpsOk(ctx: Ctx, w: Writer) {
    && |ctx.ks| == |w.labels| && |ctx.hs| == |w.tries|
    && (forall i {:trigger w.labels[i]} | 0 <= i < |w.labels| ::
          w.labels[i].used ==> Find(EntryLabel(w.labels, i), ctx.p.body, Nil) == Some(ctx.ks[i]))
    && (forall j {:trigger w.tries[j]} | 0 <= j < |w.tries| ::
          w.tries[j].used ==> Find(CatchLabel(w.tries[j].name), ctx.p.body, Nil) == Some(ctx.hs[j]))
  }

  /** The labels of `c` are found in the function exactly as in `c` followed by `k`. */
  ghost predicate Located(p: Prog, c: Code, k: Code) {
    forall l {:trigger Find(l, c, k)} {:trigger l in Labels(c)} | l in Labels(c) ::
        Find(l, p.body, Nil) == Find(l, c, k)
  }

  /** The writer's stacks are well formed above `size` values that lie below the current block. */
  ghost predicate StacksOk(w: Writer, size: nat, used: set<string>) {
    && w.labels != [] && w.labels[0].frame.name == "" && w.labels[0].kind == FuncKind
    && w.labels[0].typeStackSize == 0 && w.labels[0].tryStackSize == 0
    && size <= |w.ts|
    && (forall i {:trigger w.labels[i]} | 0 <= i < |w.labels| ::
          && w.labels[i].typeStackSize <= size
          && w.labels[i].tryStackSize <= |w.tries|
          && (w.labels[i].kind == TryKindL ==>
              w.labels[i].tryStackSize < |w.tries| && w.tries[w.labels[i].tryStackSize].name == w.labels[i].frame.name)
          && (i > 0 ==> w.labels[i].frame.name in used))
    && (forall j {:trigger w.tries[j]} | 0 <= j < |w.tries| :: w.tries[j].name in used)
    && (forall i, j | 0 <= i < j < |w.tries| :: w.tries[i].name != w.tries[j].name)
  }

  // ----- small facts -----

  lemma ValsPrefix(ts: seq<Type>, vs: seq<Value>, slots: map<(int, Type), Value>, n: nat)
    requires ValsAt(ts, vs, slots) && n <= |ts|
    ensures ValsAt(ts[..n], vs[..n], slots)
  {}

  /** Writing the variable just above a prefix. */
  lemma ValsPush(ts: seq<Type>, vs: seq<Value>, slots: map<(int, Type), Value>, n: nat, t: Type, v: Value)
    requires ValsAt(ts, vs, slots) && n <= |ts|
    ensures ValsAt(ts[..n] + [t], vs[..n] + [v], slots[(n, t) := v])
  {}

  lemma TryVarsPrefix(tries: seq<TryEntry>, hs: seq<Code>, outer: map<string, Unwind>, bufs: map<string, Code>, d: nat)
    requires TryVars(tries, hs, outer, bufs) && d <= |tries|
    ensures TryVars(tries[..d], hs, outer, bufs)
  {
    forall j | 0 <= j < d ensures tries[..d][..j] == tries[..j] {}
  }

  /** The variable for operand `i` holds it. */
  lemma VarHolds(ts: seq<Type>, below: seq<Value>, stack: seq<Value>, s: Store, i: nat)
    requires ValsAt(ts, below + stack, s.slots) && i < |stack|
    ensures EvalX(s, VarX(StackVar(ts, i))) == Some(Peek(stack, i))
    ensures SlotValue(s, StackVar(ts, i).0, StackVar(ts, i).1) == Peek(stack, i)
  {
    var h := |ts| - 1 - i;
    assert (below + stack)[h] == stack[|stack| - 1 - i];
  }

  lemma {:induction false} SlotsFromHold(ts: seq<Type>, vs: seq<Value>, s: Store, h: nat)
    requires ValsAt(ts, vs, s.slots) && h <= |ts|
    ensures SlotValues(s, SlotsFrom(h, ts[h..])) == vs[h..]
    decreases |ts| - h
  {
    if h < |ts| {
      SlotsFromHold(ts, vs, s, h + 1);
      assert ts[h..][1..] == ts[h + 1..];
      assert SlotsFrom(h, ts[h..]) == [(h as int, ts[h])] + SlotsFrom(h + 1, ts[h + 1..]);
      assert vs[h..] == [vs[h]] + vs[h + 1..];
    }
  }

  lemma TopSlotsHold(ts: seq<Type>, below: seq<Value>, stack: seq<Value>, s: Store, n: nat)
    requires ValsAt(ts, below + stack, s.slots) && n <= |stack|
    ensures SlotValues(s, TopSlots(ts, n)) == TopN(stack, n)
  {
    var h := |ts| - n;
    SlotsFromHold(ts, below + stack, s, h);
    assert (below + stack)[h..] == stack[|stack| - n..];
    assert TopN(ts, n) == ts[h..];
  }

  /** Assigning a row of variables above a prefix. */
  lemma {:induction false} SetSlotsHold(ts: seq<Type>, vs: seq<Value>, s: Store, tys: seq<Type>, xs: seq<Value>)
    requires ValsAt(ts, vs, s.slots) && |tys| == |xs|
    ensures var s1 := SetSlots(s, SlotsFrom(|ts|, tys), xs);
            ValsAt(ts + tys, vs + xs, s1.slots) && s1 == s.(slots := s1.slots)
    decreases |tys|
  {
    if tys == [] {
      assert ts + tys == ts && vs + xs == vs;
    } else {
      var s0 := s.(slots := s.slots[(|ts|, tys[0]) := xs[0]]);
      ValsPush(ts, vs, s.slots, |ts|, tys[0], xs[0]);
      assert ts[..|ts|] == ts && vs[..|vs|] == vs;
      SetSlotsHold(ts + [tys[0]], vs + [xs[0]], s0, tys[1..], xs[1..]);
      assert ts + [tys[0]] + tys[1..] == ts + tys && vs + [xs[0]] + xs[1..] == vs + xs;
    }
  }

  lemma RenderPush(base: nat, log: seq<MemEvent>, e: MemEvent)
    ensures Render(base, log + [e]) == Render(base, log) + [RecordOf(base, e)]
  {
    assert (log + [e])[..|log|] == log;
  }
}

/** The main theorems about lowering a whole function: the C program and the WebAssembly body
    have the same results, effects, exceptions, traps and divergence, with tracing on or off. */
module LoweringMain {
  import opened Ir
  import opened Wasm
  import opened Typing
  import opened StackTypes
  import opened Validation
  import opened CLang
  import opened Statements
  import opened Lowering
  import opened LoweringShape
  import opened LoweringRel
  import opened LoweringInstr
  import opened LoweringBranch
  import opened LoweringScope
  import opened LoweringText
  import opened LoweringSound
  import opened LoweringLeaf
  import opened LoweringParts
  import opened LoweringCorrect

  function ConfigOf(env: Env, trace: bool, body: seq<Expr>): Config { Config(env, trace, Rethrown(body)) }

  function Compile(env: Env, trace: bool, base: nat, body: seq<Expr>): Prog {
    Prog(LowerFunc(ConfigOf(env, trace, body), body), base)
  }

  function FuncWriter(env: Env): Writer {
    Writer([], [LabelEntry(Frame("", env.results), FuncKind, 0, 0, false)], [], false, true)
  }

  /** The writer's state at the end of the body. */
  function EndWriter(env: Env, trace: bool, body: seq<Expr>): Writer {
    LowerList(ConfigOf(env, trace, body), body, FuncWriter(env)).1
  }

  /** The label that a body is in. */
  function FuncMark(env: Env): Mark { Mark(Frame("", env.results), 0) }

  /** On this body no assertion of the writer about its type stack fails. */
  predicate Fits(env: Env, body: seq<Expr>) { StackList(env, false, body, [FuncMark(env)], []).Some? }

  /** Moreover no block that can be reached changes the types that lie below it. */
  predicate Keeps(env: Env, body: seq<Expr>) { StackList(env, true, body, [FuncMark(env)], []).Some? }

  /** The domain of the main theorems: a validated body with distinct label names, through which
      the writer's type stack is that of validation wherever control can reach, and whose
      text is well bound. All four are conditions on the expressions. */
  predicate Valid(env: Env, trace: bool, body: seq<Expr>) {
    Validated(env, body) && Fresh(body, {}) && Keeps(env, body) && WellBound(trace, {""}, body)
  }

  lemma FuncText(env: Env)
    ensures TextOk(FuncWriter(env), {""}, {}) && MarksOf(FuncWriter(env).labels) == [FuncMark(env)]
    ensures Frames(FuncWriter(env).labels) == [Frame("", env.results)]
  {}

  /** On a validated body with distinct labels on which no assertion of the writer fails, its
      output is sound exactly if the body keeps its types and is well bound. */
  lemma SoundExactly(env: Env, trace: bool, body: seq<Expr>)
    requires Validated(env, body) && Fresh(body, {}) && Fits(env, body)
    ensures EndWriter(env, trace, body).sound <==> Valid(env, trace, body)
  {
    hide LowerList, Fresh, WellBound, StackList, ValidList, Rethrown;
    FuncText(env);
    BodyValid(env, body, [Frame("", env.results)], {}, [], env.results);
    SoundList(ConfigOf(env, trace, body), body, FuncWriter(env), {""}, {}, {}, Stack(false, Known([])));
  }

  /** What the proof of the main theorems uses of a body in their domain. */
  lemma ValidSound(env: Env, trace: bool, body: seq<Expr>)
    requires Valid(env, trace, body)
    ensures Fits(env, body) && EndWriter(env, trace, body).sound
    ensures TypeBody(env, body, [Frame("", env.results)], {}, [], env.results) && Scoped(body, [Frame("", env.results)])
  {
    hide EndWriter, Fresh, WellBound, StackList, ValidList;
    KeepList(env, true, body, [FuncMark(env)], []);
    ValidatedIs(env, body);
    SoundExactly(env, trace, body);
  }

  /** A call begins: the locals and memory are given, nothing has been traced, and the
      caller's unwind target is in force. The other C variables hold anything. */
  predicate Starts(m: Machine, s: Store) {
    s.locals == m.locals && s.world == m.world && s.unwind == Caller && m.log == [] && s.out == [] && s.file == []
  }

  /** The same locals and memory; the printed records are the access log, or none. */
  predicate Observes(trace: bool, base: nat, m: Machine, s: Store) {
    s.locals == m.locals && s.world == m.world && s.out == s.file == (if trace then Render(base, m.log) else [])
  }

  /** A C state is the one for a result: stopped in the same way, or still running if the fuel
      has run out. */
  predicate Matches(trace: bool, base: nat, r: Result, c: Conf) {
    match r
    case Values(vs, m) => c.Finished? && c.vals == vs && Observes(trace, base, m, c.s)
    case Uncaught(x, m) => c.Escaped? && c.s.exn == x && c.s.unwind == Caller && Observes(trace, base, m, c.s)
    case Trapped(m) => c.Aborted? && Observes(trace, base, m, c.s)
    case Exhausted(m) => c.Running? && Observes(trace, base, m, c.s)
  }

  function FuncCtx(env: Env, trace: bool, base: nat, body: seq<Expr>, host: Host): Ctx {
    Ctx(host, Compile(env, trace, base, body), ConfigOf(env, trace, body),
        [One(ReturnSlots(SlotsFrom(0, env.results)))], [])
  }

  /** The pieces of a function's code. */
  lemma FuncPlaced(env: Env, trace: bool, base: nat, body: seq<Expr>, host: Host)
    requires Valid(env, trace, body)
    ensures var ctx := FuncCtx(env, trace, base, body, host);
            var (c, w1) := LowerList(ctx.cfg, body, FuncWriter(env));
            var tail := Append(LabelDecl(w1, FuncLabel), ctx.ks[0]);
            && ctx.p.body == Append(c, tail) && Placed(ctx, c, w1, tail) && Lands(tail, ctx.ks[0])
  {
    ValidSound(env, trace, body);
    hide LowerList, Fresh, TypeBody, Valid, WellBound, Keeps, Fits, Scoped;
    var ctx := FuncCtx(env, trace, base, body, host);
    var (c, w1) := LowerList(ctx.cfg, body, FuncWriter(env));
    var tail := Append(LabelDecl(w1, FuncLabel), ctx.ks[0]);
    DeclLands(w1, FuncLabel, ctx.ks[0]);
    ListLabels(ctx.cfg, body, FuncWriter(env));
    GrownList(ctx.cfg, body, FuncWriter(env));
    assert FuncWriter(env).labels[0] == LabelEntry(Frame("", env.results), FuncKind, 0, 0, false);
    AppendNil(tail);
    forall l | l in Labels(c) ensures Find(l, ctx.p.body, Nil) == Find(l, c, tail) {
      FindAppend(l, c, tail, Nil);
      FindLabels(l, c, tail);
    }
    FindAppend(FuncLabel, c, tail, Nil);
    FindLabels(FuncLabel, c, tail);
    assert FuncLabel !in Labels(c);
    if w1.labels[0].used {
      AppendOne(LabelHere(FuncLabel, true), ctx.ks[0]);
      assert Find(FuncLabel, tail, Nil) == Some(Append(ctx.ks[0], Nil));
      AppendNil(ctx.ks[0]);
    }
  }

  lemma StartReady(env: Env, trace: bool, base: nat, body: seq<Expr>, host: Host, m: Machine, s: Store)
    requires Starts(m, s) && HostOk(env, host)
    ensures Ready(FuncCtx(env, trace, base, body, host), {}, {}, [], [], FuncWriter(env), [], map[], m.(stack := []), s)
  {
    hide HostOk;
    var none: seq<Value> := [];
    assert none + none == none;
  }

  /** Returning from the end of the body or from the function label. */
  lemma FuncReturns(ctx: Ctx, k: Code, ts: seq<Type>, results: seq<Type>, vs: seq<Value>, s: Store)
      returns (n: nat, c: Conf)
    requires ValsAt(results, vs, s.slots) && k == One(ReturnSlots(SlotsFrom(0, results)))
    ensures c == Steps(ctx.host, ctx.p, Running(k, s), n) && c == Finished(vs, s)
  {
    SlotsFromHold(results, vs, s, 0);
    assert results[0..] == results && vs[0..] == vs;
    n, c := 1, Finished(vs, s);
    OneStep(ctx, Running(k, s), c);
  }

  /** The C program reaches the state for whatever the WebAssembly body does within some
      fuel; if the fuel runs out the C program has run at least that many steps. */
  lemma Simulates(env: Env, trace: bool, base: nat, body: seq<Expr>, host: Host, m: Machine, s: Store, fuel: nat)
    returns (n: nat, c: Conf)
    requires Valid(env, trace, body) && HostOk(env, host) && Starts(m, s)
    ensures var p := Compile(env, trace, base, body); c == Steps(host, p, Running(p.body, s), n)
    ensures var r := Invoke(env, host, body, m, fuel);
            Matches(trace, base, r, c) && (r.Exhausted? ==> n >= fuel)
  {
    hide Valid, Scoped, Fits, LowerList, Fresh, HostOk, Compile, LowerFunc, Ready, EvalList, Steps, Append, Rethrown,
        TypeList, TypeBody, Invoke, Matches, Starts, Arrived, Placed, LabelDecl, ResetTs;
    ValidSound(env, trace, body);
    ValidFresh(env, trace, body);
    var ctx := FuncCtx(env, trace, base, body, host);
    var w := FuncWriter(env);
    var (code, w1) := LowerList(ctx.cfg, body, w);
    var k := ctx.ks[0];
    var tail := Append(LabelDecl(w1, FuncLabel), k);
    FuncPlaced(env, trace, base, body, host);
    StartReady(env, trace, base, body, host, m, s);
    assert Frames(w.labels) == [Frame("", env.results)];
    BodyTyped(env, body, Frames(w.labels), {}, [], env.results);
    n, c := SimList(ctx, body, {}, {}, [], [], w, [], map[], m.(stack := []), tail, s, fuel);
    FuncBodyEnds(env, trace, body);
    var o := EvalList(env, host, body, map[], m.(stack := []), fuel);
    var n2: nat, d := FuncEnds(ctx, env, trace, base, body, host, m, w, w1, k, tail, o, n, fuel, c);
    var c0 := Running(ctx.p.body, s);
    Chain(ctx, c0, n, c, n2, d);
    n, c := n + n2, d;
  }

  lemma ValidFresh(env: Env, trace: bool, body: seq<Expr>)
    requires Valid(env, trace, body)
    ensures Fresh(body, {})
  {
    hide Fresh;
  }

  /** If the end of a function's body is reached, its results are on the type stack. */
  lemma FuncBodyEnds(env: Env, trace: bool, body: seq<Expr>)
    requires TypeBody(env, body, [Frame("", env.results)], {}, [], env.results) && EndWriter(env, trace, body).sound
    ensures TypeList(env, body, [Frame("", env.results)], {}, []).Live? ==>
        EndWriter(env, trace, body).ts == env.results
  {
    hide LowerList, TypeBody, TypeList, Rethrown;
    var w := FuncWriter(env);
    var none: seq<Type> := [];
    FuncText(env);
    assert w.ts == none && none + none == none && none + env.results == env.results;
    assert EndWriter(env, trace, body) == LowerList(ConfigOf(env, trace, body), body, w).1;
    AfterBody(ConfigOf(env, trace, body), body, {}, none, env.results, w, w);
  }

  lemma AtEnd(ctx: Ctx, w: Writer, results: seq<Type>, m: Machine, s: Store)
    requires Rel(ctx, w, [], map[], m, s) && w.ts == [] + results
    ensures ValsAt(results, m.stack, s.slots) && DataRel(ctx, m, s) && |m.stack| == |results|
  {
    assert [] + m.stack == m.stack && [] + results == results;
  }

  /** What the outcome of a body means for its function. */
  lemma FuncEnds(ctx: Ctx, env: Env, trace: bool, base: nat, body: seq<Expr>, host: Host, m: Machine, w: Writer,
      w1: Writer, k: Code, tail: Code, o: Outcome, n: nat, fuel: nat, c: Conf)
    returns (n2: nat, d: Conf)
    requires ctx == FuncCtx(env, trace, base, body, host) && w == FuncWriter(env) && k == ctx.ks[0] && Lands(tail, k)
    requires o == EvalList(env, host, body, map[], m.(stack := []), fuel)
    requires Arrived(ctx, w, w1, [], map[], o, tail, n, fuel, c)
    requires o.Next? ==> w1.ts == env.results
    ensures Steps(host, ctx.p, c, n2) == d
    ensures var r := Invoke(env, host, body, m, fuel);
            Matches(trace, base, r, d) && (r.Exhausted? ==> n + n2 >= fuel)
  {
    hide EvalList, LowerFunc, TryVars, SavedOk, Steps, Rel, Render, RecordOf;
    n2, d := 0, c;
    NoSteps(ctx, c);
    match o
    case Next(m1) =>
      AtEnd(ctx, w1, env.results, m1, c.s);
      assert TopN(m1.stack, |env.results|) == m1.stack;
      var n1 := RunLands(ctx, tail, k, c.s);
      var n3;
      n3, d := FuncReturns(ctx, k, w1.ts, env.results, m1.stack, c.s);
      n2 := n1 + n3;
      Chain(ctx, c, n1, Running(k, c.s), n3, d);
      assert Matches(trace, base, Values(m1.stack, m1), d);
    case Branch(to, m1) =>
      assert TargetIndex(w.labels, to) == 0;
      var top := TopN(m1.stack, |env.results|);
      assert [] + env.results == env.results && [] + top == top;
      n2, d := FuncReturns(ctx, k, w1.ts, env.results, top, c.s);
      assert Matches(trace, base, Values(top, m1), d);
    case Raise(x, m1) =>
      assert Matches(trace, base, Uncaught(x, m1), d);
    case Delegated(to, x, m1) =>
      assert DelegateDepth(w.labels, to) == 0;
      assert Matches(trace, base, Uncaught(x, m1), d);
    case Trap(m1) =>
      assert Matches(trace, base, Trapped(m1), d);
    case OutOfFuel(m1) =>
      assert Matches(trace, base, Exhausted(m1), d);
  }

  /** A run that is still going after `n` steps was going all along. */
  lemma StillRunning(host: Host, p: Prog, c: Conf, n: nat, n1: nat)
    requires n <= n1 && Steps(host, p, c, n1).Running?
    ensures Steps(host, p, c, n).Running?
  {
    var d := Steps(host, p, c, n);
    StepsAdd(host, p, c, n, n1 - n);
    if !d.Running? { StepsStopped(host, p, d, n1 - n); }
  }

  /** Two stopped states of one run are the same. */
  lemma SameStop(host: Host, p: Prog, c: Conf, n: nat, n1: nat)
    requires !Steps(host, p, c, n).Running? && !Steps(host, p, c, n1).Running?
    ensures Steps(host, p, c, n) == Steps(host, p, c, n1)
  {
    var a, b := if n <= n1 then n else n1, if n <= n1 then n1 else n;
    StepsAdd(host, p, c, a, b - a);
    StepsStopped(host, p, Steps(host, p, c, a), b - a);
  }

  /** Forward: a WebAssembly run that ends is matched by a C run that ends the same way. */
  lemma Forward(env: Env, trace: bool, base: nat, body: seq<Expr>, host: Host, m: Machine, s: Store, fuel: nat)
    requires Valid(env, trace, body) && HostOk(env, host) && Starts(m, s)
    requires !Invoke(env, host, body, m, fuel).Exhausted?
    ensures var p := Compile(env, trace, base, body);
            exists n :: Matches(trace, base, Invoke(env, host, body, m, fuel), Steps(host, p, Running(p.body, s), n))
  {
    hide Valid, HostOk, Invoke, Compile, Steps, Matches;
    var n, c := Simulates(env, trace, base, body, host, m, s, fuel);
  }

  /** Backward: a C run that stops has stopped in the state for the WebAssembly result; in
      particular it never gets stuck. */
  lemma Backward(env: Env, trace: bool, base: nat, body: seq<Expr>, host: Host, m: Machine, s: Store, n: nat)
    requires Valid(env, trace, body) && HostOk(env, host) && Starts(m, s)
    requires var p := Compile(env, trace, base, body); !Steps(host, p, Running(p.body, s), n).Running?
    ensures var p := Compile(env, trace, base, body);
            var r := Invoke(env, host, body, m, n + 1);
            !r.Exhausted? && Matches(trace, base, r, Steps(host, p, Running(p.body, s), n))
  {
    hide Valid, HostOk, Invoke, Compile, Steps;
    var p := Compile(env, trace, base, body);
    var n1, c := Simulates(env, trace, base, body, host, m, s, n + 1);
    if c.Running? {
      StillRunning(host, p, Running(p.body, s), n, n1);
    } else {
      SameStop(host, p, Running(p.body, s), n, n1);
    }
  }

  /** The C program runs forever exactly when the WebAssembly body does. */
  lemma Divergence(env: Env, trace: bool, base: nat, body: seq<Expr>, host: Host, m: Machine, s: Store)
    requires Valid(env, trace, body) && HostOk(env, host) && Starts(m, s)
    ensures var p := Compile(env, trace, base, body);
            (forall fuel: nat :: Invoke(env, host, body, m, fuel).Exhausted?)
            <==> (forall n: nat :: Steps(host, p, Running(p.body, s), n).Running?)
  {
    hide Valid, HostOk, Invoke, Compile, Steps;
    var p := Compile(env, trace, base, body);
    if forall fuel: nat :: Invoke(env, host, body, m, fuel).Exhausted? {
      forall n: nat ensures Steps(host, p, Running(p.body, s), n).Running? {
        var n1, c := Simulates(env, trace, base, body, host, m, s, n);
        assert Invoke(env, host, body, m, n).Exhausted?;
        StillRunning(host, p, Running(p.body, s), n, n1);
      }
    } else {
      var fuel: nat :| !Invoke(env, host, body, m, fuel).Exhausted?;
      Forward(env, trace, base, body, host, m, s, fuel);
    }
  }

  /** Two C states have stopped in the same way, with the same values, exception, locals and
      memory; the one has printed the records of `log`, the other nothing. */
  ghost predicate SameStopped(base: nat, log: seq<MemEvent>, c: Conf, d: Conf) {
    && c != Stuck && d != Stuck && !d.Running?
    && (c.Finished? <==> d.Finished?) && (c.Escaped? <==> d.Escaped?) && (c.Aborted? <==> d.Aborted?)
    && (c.Finished? ==> c.vals == d.vals) && (c.Escaped? ==> c.s.exn == d.s.exn)
    && c.s.locals == d.s.locals && c.s.world == d.s.world
    && d.s.out == d.s.file == [] && c.s.out == c.s.file == Render(base, log)
  }

  /** Tracing is transparent: with it on or off the program stops in the same way with the
      same values, locals and memory; off it prints nothing, and on it prints exactly one
      record for each attempted access, in order. */
  lemma TracingTransparent(env: Env, base: nat, body: seq<Expr>, host: Host, m: Machine, s: Store, n: nat)
    returns (n1: nat)
    requires Valid(env, true, body) && HostOk(env, host) && Starts(m, s)
    requires var on := Compile(env, true, base, body); !Steps(host, on, Running(on.body, s), n).Running?
    ensures var (on, off) := (Compile(env, true, base, body), Compile(env, false, base, body));
            var r := Invoke(env, host, body, m, n + 1);
            && !r.Exhausted?
            && SameStopped(base, r.m.log, Steps(host, on, Running(on.body, s), n),
                Steps(host, off, Running(off.body, s), n1))
  {
    hide Valid, HostOk, Invoke, Compile, Steps;
    ValidUntraced(env, body);
    Backward(env, true, base, body, host, m, s, n);
    var d;
    n1, d := Simulates(env, false, base, body, host, m, s, n + 1);
  }

  lemma ValidUntraced(env: Env, body: seq<Expr>)
    requires Valid(env, true, body)
    ensures Valid(env, false, body)
  {
    hide Validated, Fresh, Keeps, WellBound;
    UntracedBound({""}, body);
  }

  // ----- the trace of a run that goes on -----

  function Printed(c: Conf): seq<Record> {
    match c
    case Running(_, s) => s.out
    case Finished(_, s) => s.out
    case Escaped(s) => s.out
    case Aborted(s) => s.out
    case Stuck => []
  }

  lemma StepPrints(host: Host, p: Prog, c: Conf)
    requires Step(host, p, c) != Stuck
    ensures Printed(c) <= Printed(Step(host, p, c))
  {
    hide EvalX, ReadMem, WriteMem, SelectCase, Append, Find, SetSlots, SlotValues, CallEnds, Pointer;
    if c.Running? && c.code.Cons? {
      match c.code.hd
      case CallFunc(f, args, dsts) => CallPrints(host(f, SlotValues(c.s, args), c.s.world), dsts, c.code.tl, c.s);
      case UnpackExn(dsts) => SlotsPrint(c.s, dsts, c.s.exn.args);
      case _ =>
    }
  }

  lemma CallPrints(r: HostResult, dsts: seq<(int, Type)>, k: Code, s: Store)
    requires CallEnds(r, dsts, k, s) != Stuck
    ensures Printed(CallEnds(r, dsts, k, s)) == s.out
  {
    if r.Returned? { SlotsPrint(s.(world := r.w), dsts, r.vals); }
  }

  lemma {:induction false} SlotsPrint(s: Store, dsts: seq<(int, Type)>, vs: seq<Value>)
    ensures SetSlots(s, dsts, vs).out == s.out
    decreases |dsts|
  {
    if dsts != [] && vs != [] { SlotsPrint(s.(slots := s.slots[dsts[0] := vs[0]]), dsts[1..], vs[1..]); }
  }

  /** What has been printed stays printed. */
  lemma {:induction false} PrintsGrow(host: Host, p: Prog, c: Conf, n: nat)
    requires Steps(host, p, c, n) != Stuck
    ensures Printed(c) <= Printed(Steps(host, p, c, n))
    decreases n
  {
    if n > 0 {
      var d := Step(host, p, c);
      if d == Stuck { StepsStopped(host, p, d, n - 1); }
      StepPrints(host, p, c);
      PrintsGrow(host, p, d, n - 1);
    }
  }

  /** After every number of steps the printed records are the first of those that render the
      accesses attempted so far, and in time all of these are printed; so the records of a
      run that never ends are those of its accesses, in order. */
  lemma TraceSoFar(env: Env, base: nat, body: seq<Expr>, host: Host, m: Machine, s: Store, n: nat) returns (n1: nat)
    requires Valid(env, true, body) && HostOk(env, host) && Starts(m, s)
    ensures var on := Compile(env, true, base, body);
            var r := Invoke(env, host, body, m, n);
            && Printed(Steps(host, on, Running(on.body, s), n)) <= Render(base, r.m.log)
            && Printed(Steps(host, on, Running(on.body, s), n1)) == Render(base, r.m.log)
  {
    hide Valid, HostOk, Invoke, Compile, Steps;
    var on := Compile(env, true, base, body);
    var c0 := Running(on.body, s);
    var c;
    n1, c := Simulates(env, true, base, body, host, m, s, n);
    var d := Steps(host, on, c0, n);
    if n <= n1 {
      StepsAdd(host, on, c0, n, n1 - n);
      PrintsGrow(host, on, d, n1 - n);
    } else {
      StepsAdd(host, on, c0, n1, n - n1);
      StepsStopped(host, on, c, n - n1);
    }
  }
}

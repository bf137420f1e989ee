/** Concrete bodies on which the writer fails, one for each condition of the main theorems. */
module LoweringExamples {
  import opened Ir
  import opened Wasm
  import opened Typing
  import opened StackTypes
  import opened Validation
  import opened CLang
  import opened Statements
  import opened Lowering
  import opened LoweringShape
  import opened LoweringMain
  import opened LoweringLimits

  const NO_SIG := BlockDecl(FuncType([], []), None)

  const SEVEN := Value(I32, 7)

  // ----- a late catch_all of two statements -----

  /** One local, and one tag without values. */
  const LATE_ENV := Env([], [[]], [I32], [], [])

  const LATE_ALL := [Plain(Const(SEVEN))] + ([Plain(LocalSet(0))] + [])

  const LATE_CATCHES := [Catch(Some(0), [])] + ([Catch(None, LATE_ALL)] + [])

  const THROWING := [Throw(0)] + []

  const LATE_TRY := Try("t", NO_SIG, THROWING, CatchTry, LATE_CATCHES, Index(0))

  /** try throw 0 catch 0 catch_all (local.set 0 (i32.const 7)) end */
  const LATE_BODY := [LATE_TRY] + []

  /** An instruction on a stack of known types, in front of a list. */
  lemma PlainCons(env: Env, i: Instr, es: seq<Expr>, fs: seq<Frame>, ex: set<string>, keep: bool, ms: seq<Mark>,
      ts: seq<Type>, ts1: seq<Type>, used: set<string>, trace: bool, near: set<string>)
    requires ValidInstr(env, i, Stack(false, Known(ts))) == Some(Stack(false, Known(ts1)))
    requires Effect(env, i, ts).0 <= |ts| && After(env, i, ts) == ts1
    ensures ValidList(env, [Plain(i)] + es, fs, ex, Stack(false, Known(ts)))
        == ValidList(env, es, fs, ex, Stack(false, Known(ts1)))
    ensures StackList(env, keep, [Plain(i)] + es, ms, ts) == StackList(env, keep, es, ms, ts1)
    ensures Fresh([Plain(i)] + es, used) <==> Fresh(es, used)
    ensures WellBound(trace, near, [Plain(i)] + es) <==> WellBound(trace, near, es)
    ensures Text(trace, near, [Plain(i)] + es) == Join(TextOf(trace, near, Plain(i)), Text(trace, near, es))
  {
    hide ValidInstr, Effect, After, Join, ValidList, StackList, Fresh, WellBound, Text;
    ListCons(env, Plain(i), es, fs, ex, Stack(false, Known(ts)), keep, ms, ts, used, trace, near);
    assert used + {} == used;
  }

  /** `i32.const`, or another constant. */
  lemma ConstStep(env: Env, v: Value, ts: seq<Type>)
    ensures ValidInstr(env, Const(v), Stack(false, Known(ts))) == Some(Stack(false, Known(ts + [v.ty])))
    ensures After(env, Const(v), ts) == ts + [v.ty]
  {
    ApplyKnown(ts, [], [v.ty]);
    assert ts[..|ts|] == ts;
  }

  lemma LocalSetStep(env: Env, x: nat, ts: seq<Type>)
    requires x < |env.locals|
    ensures ValidInstr(env, LocalSet(x), Stack(false, Known(ts + [env.locals[x]]))) == Some(Stack(false, Known(ts)))
    ensures After(env, LocalSet(x), ts + [env.locals[x]]) == ts
  {
    var t := env.locals[x];
    ApplyKnown(ts + [t], [t], []);
    assert (ts + [t])[..|ts|] == ts && (ts + [t])[|ts|..] == [t] && ts + [] == ts;
  }

  /** The empty list. */
  lemma ListNil(env: Env, fs: seq<Frame>, ex: set<string>, st: Stack, keep: bool, ms: seq<Mark>, ts: seq<Type>,
      used: set<string>, trace: bool, near: set<string>)
    ensures ValidList(env, [], fs, ex, st) == Some(st) && StackList(env, keep, [], ms, ts) == Some(ts)
    ensures Fresh([], used) && WellBound(trace, near, []) && Text(trace, near, []) == NOTHING
  {}

  lemma LateAll(fs: seq<Frame>, ex: set<string>, near: set<string>, used: set<string>, ms: seq<Mark>)
    ensures ValidBody(LATE_ENV, LATE_ALL, fs, ex, [], []) && Fresh(LATE_ALL, used)
    ensures StackList(LATE_ENV, true, LATE_ALL, ms, []) == Some([])
    ensures WellBound(false, near, LATE_ALL) && Text(false, near, LATE_ALL) == DOUBLE
  {
    hide ValidList, StackList, Fresh, WellBound, Text, TextOf, Join, PopAll, ValidInstr, Effect, After;
    var none: seq<Type> := [];
    ConstStep(LATE_ENV, SEVEN, none);
    assert none + [I32] == [I32];
    LocalSetStep(LATE_ENV, 0, none);
    Reads(LATE_ENV, SEVEN, 0);
    PlainCons(LATE_ENV, Const(SEVEN), [Plain(LocalSet(0))] + [], fs, ex, true, ms, none, [I32], used, false, near);
    PlainCons(LATE_ENV, LocalSet(0), [], fs, ex, true, ms, [I32], none, used, false, near);
    ListNil(LATE_ENV, fs, ex, Stack(false, Known(none)), true, ms, none, used, false, near);
    TextTwo(near);
    NothingLeft(LATE_ENV, LATE_ALL, fs, ex);
  }

  lemma TextTwo(near: set<string>)
    ensures Join(TextOf(false, near, Plain(Const(SEVEN))), Join(TextOf(false, near, Plain(LocalSet(0))), NOTHING))
        == DOUBLE
  {
    assert TextOf(false, near, Plain(Const(SEVEN))) == SINGLE == TextOf(false, near, Plain(LocalSet(0)));
    hide TextOf;
  }

  lemma NothingLeft(env: Env, es: seq<Expr>, fs: seq<Frame>, ex: set<string>)
    requires ValidList(env, es, fs, ex, Stack(false, Known([]))) == Some(Stack(false, Known([])))
    ensures ValidBody(env, es, fs, ex, [], [])
  {
    PopAllKnown([], []);
  }

  /** What constants and assignments name. */
  lemma Reads(env: Env, v: Value, x: nat)
    ensures forall ts: seq<Type> {:trigger Effect(env, Const(v), ts)} :: Effect(env, Const(v), ts).0 == 0
    ensures forall ts: seq<Type> {:trigger Effect(env, LocalSet(x), ts)} :: Effect(env, LocalSet(x), ts).0 == 1
  {}

  /** A throw on its own. */
  lemma ThrowingFacts(fs: seq<Frame>, ex: set<string>, near: set<string>, used: set<string>, keep: bool,
      ms: seq<Mark>, ts: seq<Type>)
    ensures ValidBody(LATE_ENV, THROWING, fs, ex, [], []) && Fresh(THROWING, used)
    ensures StackList(LATE_ENV, keep, THROWING, ms, ts) == Some(ts) && WellBound(false, near, THROWING)
  {
    hide ValidList, StackList, Fresh, WellBound, Text, PopAll;
    var st := Stack(false, Known([]));
    PopAllKnown([], []);
    ListCons(LATE_ENV, Throw(0), [], fs, ex, st, keep, ms, ts, used, false, near);
    ListNil(LATE_ENV, fs, ex, UNREACHED, false, ms, ts, used + {}, false, near);
    PopNone(UNREACHED);
  }

  lemma PopNone(st: Stack)
    ensures PopAll(st, []) == Some(st)
  {}

  lemma EmptyBody(env: Env, fs: seq<Frame>, ex: set<string>)
    ensures ValidBody(env, [], fs, ex, [], [])
  {
    ListNil(env, fs, ex, Stack(false, Known([])), true, [], [], {}, false, {});
    NothingLeft(env, [], fs, ex);
  }

  /** The clauses validate, but the catch_all behind the other clause is two statements. */
  lemma LateClauses(fs: seq<Frame>, ex: set<string>, near: set<string>, used: set<string>, ms: seq<Mark>)
    ensures ValidCatches(LATE_ENV, LATE_CATCHES, fs, ex, []) && FreshCatches(LATE_CATCHES, used)
    ensures StackCatches(LATE_ENV, true, LATE_CATCHES, ms, [], []) == Some([])
    ensures LastText(false, near, LATE_CATCHES) == DOUBLE && !WellBoundCatches(false, near, LATE_CATCHES)
  {
    hide ValidBody, ValidCatches, StackList, StackCatches, Fresh, FreshCatches, WellBound, WellBoundCatches, Text,
        LastText, Names;
    LateAll(fs, ex, near, used, ms);
    EmptyBody(LATE_ENV, fs, ex);
    CatchCons(LATE_ENV, Catch(None, LATE_ALL), [], fs, ex, [], true, ms, [], [], used, false, near);
    CatchCons(LATE_ENV, Catch(Some(0), []), [Catch(None, LATE_ALL)] + [], fs, ex, [], true, ms, [], [], used, false,
        near);
    CatchNil(LATE_ENV, fs, ex, [], used + Names(LATE_ALL));
    ListNil(LATE_ENV, fs, ex, UNREACHED, true, ms, [], used, false, near);
    NoNames(used);
    NotLeft();
    var none: seq<Type> := [];
    assert none[..0] == none && none + none == none && TagOf(LATE_ENV, 0) == none;
    assert Reset(true, none, none) == Some(none);
  }

  lemma CatchNil(env: Env, fs: seq<Frame>, ex: set<string>, results: seq<Type>, used: set<string>)
    ensures ValidCatches(env, [], fs, ex, results) && FreshCatches([], used)
  {}

  lemma NoNames(used: set<string>)
    ensures used + Names([]) == used
  {}

  /** The end of an empty clause is reached. */
  lemma NotLeft()
    ensures !LeavesList([])
  {}

  /** The body is validated, and no assertion of the writer fails on it. */
  lemma LateValid()
    ensures Validated(LATE_ENV, LATE_BODY) && Fresh(LATE_BODY, {}) && Keeps(LATE_ENV, LATE_BODY)
        && !WellBound(false, {""}, LATE_BODY)
  {
    hide ValidBody, ValidCatches, ValidList, StackList, StackCatches, Fresh, FreshCatches, WellBound,
        WellBoundCatches, Text, LastText, Names, PopAll;
    var fs := [Frame("", [])];
    var fs1 := fs + [Frame("t", [])];
    var ms := [FuncMark(LATE_ENV)];
    var ms1 := ms + [Mark(Frame("t", []), 0)];
    var none: seq<Type> := [];
    var st := Stack(false, Known(none));
    assert none + none == none && none[..0] == none;
    ThrowingFacts(fs1, {}, {}, {} + {"t"}, true, ms1, none);
    LateClauses(fs1, {} + {"t"}, {""} + {"t"}, {} + {"t"} + Names(THROWING), ms1);
    ApplyKnown(none, none, none);
    assert Shift(none, none, none) == Live(none);
    LateTryFacts(fs, fs1, ms, ms1);
    ListCons(LATE_ENV, LATE_TRY, [], fs, {}, st, true, ms, none, {}, false, {""});
    ListNil(LATE_ENV, fs, {}, st, true, ms, none, {} + ExprNames(LATE_TRY), false, {""});
    NothingLeft(LATE_ENV, LATE_BODY, fs, {});
  }

  lemma LateTryFacts(fs: seq<Frame>, fs1: seq<Frame>, ms: seq<Mark>, ms1: seq<Mark>)
    requires fs1 == fs + [Frame("t", [])] && ms1 == ms + [Mark(Frame("t", []), 0)]
    requires ValidBody(LATE_ENV, THROWING, fs1, {}, [], []) && ValidCatches(LATE_ENV, LATE_CATCHES, fs1, {} + {"t"}, [])
    requires Fresh(THROWING, {} + {"t"}) && FreshCatches(LATE_CATCHES, {} + {"t"} + Names(THROWING))
    requires StackList(LATE_ENV, true, THROWING, ms1, []) == Some([])
        && StackCatches(LATE_ENV, true, LATE_CATCHES, ms1, [], []) == Some([])
    requires !WellBoundCatches(false, {""} + {"t"}, LATE_CATCHES)
    ensures ValidExpr(LATE_ENV, LATE_TRY, fs, {}, Stack(false, Known([]))) == Some(Stack(false, Known([])))
    ensures FreshExpr(LATE_TRY, {}) && StackExpr(LATE_ENV, true, LATE_TRY, ms, []) == Some([])
        && !WellBoundExpr(false, {""}, LATE_TRY)
  {
    hide ValidBody, ValidCatches, StackList, StackCatches, Fresh, FreshCatches, WellBound, WellBoundCatches, Text,
        LastText, Names, PopAll, Resolve;
    ApplyKnown([], [], []);
    assert Shift([], [], []) == Live([]);
    var none: seq<Type> := [];
    assert none + none == none && none[..0] == none && DropN(none, 0) == none;
  }

  // ----- what it is written as -----

  /** The clauses' part of the code: only the first assignment is under the `else`. */
  const LATE_HANDLER :=
    Cons(LabelHere(CatchLabel("t"), true),
         Cons(UnwindOuter("t"),
              Cons(IfTag(0, Nil, One(Assign(0, I32, LitX(SEVEN)))), One(SetLocal(0, SlotX(0, I32))))))

  const LATE_THROW := Cons(LoadExn(0, []), One(Goto(CatchLabel("t"))))

  const LATE_INNER := Cons(UnwindTo("t"), Cons(LoadExn(0, []), Cons(Goto(CatchLabel("t")), One(UnwindOuter("t")))))

  const LATE_TAIL := One(ReturnSlots([]))

  const LATE_CODE := Cons(IfTry("t", LATE_INNER, LATE_HANDLER), LATE_TAIL)

  lemma LateRethrown()
    ensures Rethrown(LATE_BODY) == {}
  {
    hide Rethrown;
    var cfg := Config(LATE_ENV, false, {});
    var w := FuncWriter(LATE_ENV);
    CodeCons(cfg, LATE_TRY, [], w);
    CodeCons(cfg, Throw(0), [], w);
    CodeCons(cfg, Plain(Const(SEVEN)), [Plain(LocalSet(0))] + [], w);
    CodeCons(cfg, Plain(LocalSet(0)), [], w);
    RethrownNil();
    LateRethrownIn();
  }

  lemma RethrownNil()
    ensures Rethrown([]) == {}
  {}

  lemma LateRethrownIn()
    requires Rethrown([]) == {} && Rethrown(LATE_ALL) == {}
    ensures RethrownIn(LATE_CATCHES) == {}
  {
    hide Rethrown;
    var rest := [Catch(None, LATE_ALL)] + [];
    assert LATE_CATCHES[1..] == rest;
    assert RethrownIn(rest) == {};
  }

  lemma LateBodyCode(cfg: Config, w1: Writer)
    requires cfg == ConfigOf(LATE_ENV, false, LATE_BODY) && w1.ts == [] && w1.tries == [TryEntry("t", false)]
    ensures LowerList(cfg, THROWING, w1) == (LATE_THROW, w1.(tries := [TryEntry("t", true)], dead := true))
  {
    hide LowerList;
    CodeCons(cfg, Throw(0), [], w1);
    var w2 := w1.(tries := [TryEntry("t", true)], dead := true);
    CodeNil(cfg, w2);
    assert w1.tries[0 := TryEntry("t", true)] == w2.tries;
    assert TopSlots([], 0) == [];
    assert LowerThrow(w1) == (One(Goto(CatchLabel("t"))), w1.(tries := [TryEntry("t", true)]));
    AppendNil(LATE_THROW);
  }

  lemma CodeNil(cfg: Config, w: Writer)
    ensures LowerList(cfg, [], w) == (Nil, w)
  {}

  lemma LateAllCode(cfg: Config, w: Writer)
    requires cfg.env == LATE_ENV && w.ts == []
    ensures LowerList(cfg, LATE_ALL, w) == (Cons(Assign(0, I32, LitX(SEVEN)), One(SetLocal(0, SlotX(0, I32)))), w)
  {
    hide LowerList;
    var none: seq<Type> := [];
    var w1 := w.(ts := [I32]);
    CodeCons(cfg, Plain(Const(SEVEN)), [Plain(LocalSet(0))] + [], w);
    CodeCons(cfg, Plain(LocalSet(0)), [], w1);
    CodeNil(cfg, w);
    assert DropN(none, 0) + [I32] == [I32] && DropN([I32], 1) + none == none;
    assert LowerExpr(cfg, Plain(Const(SEVEN)), w) == (One(Assign(0, I32, LitX(SEVEN))), w1);
    assert LowerExpr(cfg, Plain(LocalSet(0)), w1) == (One(SetLocal(0, SlotX(0, I32))), w);
  }

  lemma LateClausesCode(cfg: Config, w0: Writer, w: Writer)
    requires cfg == ConfigOf(LATE_ENV, false, LATE_BODY) && w0.ts == [] && w.ts == [] && w.tries == []
    ensures LowerCatches(cfg, LATE_CATCHES, w0, w).0 == LATE_HANDLER.tl.tl
    ensures LowerCatches(cfg, LATE_CATCHES, w0, w).1.labels == w.labels
  {
    hide LowerList, Chained, ShapeOf;
    var rest := [Catch(None, LATE_ALL)] + [];
    assert LATE_CATCHES[1..] == rest;
    var none: seq<Type> := [];
    assert none[..0] + none == none;
    var w1 := ResetTs(w, w0, none);
    CodeNil(cfg, w1);
    LateAllCode(cfg, ResetTs(w1, w0, none));
    assert LowerCatches(cfg, rest, w0, w1) == LowerList(cfg, LATE_ALL, ResetTs(w1, w0, none));
    ChainedLabels(LowerCatches(cfg, rest, w0, w1).1, [], Nil, LowerCatches(cfg, rest, w0, w1).0);
    assert TagOf(LATE_ENV, 0) == none;
  }

  lemma ChainedLabels(w: Writer, es: seq<Expr>, c1: Code, c2: Code)
    ensures Chained(w, es, c1, c2).labels == w.labels
  {}

  lemma LateCode()
    ensures LowerFunc(ConfigOf(LATE_ENV, false, LATE_BODY), LATE_BODY) == LATE_CODE
  {
    hide LowerList, LowerTry, Rethrown, Append;
    var cfg := ConfigOf(LATE_ENV, false, LATE_BODY);
    var w := FuncWriter(LATE_ENV);
    LateTryCode(cfg, w);
    CodeCons(cfg, LATE_TRY, [], w);
    CodeNil(cfg, LowerTry(cfg, LATE_TRY, w).1);
    AppendNil(One(IfTry("t", LATE_INNER, LATE_HANDLER)));
    LateFuncTail(LowerTry(cfg, LATE_TRY, w).1);
  }

  lemma LateFuncTail(w1: Writer)
    requires w1.labels == FuncWriter(LATE_ENV).labels
    ensures Append(One(IfTry("t", LATE_INNER, LATE_HANDLER)), Append(LabelDecl(w1, FuncLabel), LATE_TAIL)) == LATE_CODE
  {}

  lemma LateTryCode(cfg: Config, w: Writer)
    requires cfg == ConfigOf(LATE_ENV, false, LATE_BODY) && w == FuncWriter(LATE_ENV)
    ensures LowerTry(cfg, LATE_TRY, w).0 == One(IfTry("t", LATE_INNER, LATE_HANDLER))
    ensures LowerTry(cfg, LATE_TRY, w).1.labels == w.labels
  {
    hide LowerList, LowerCatches, ShapeOf, Rethrown;
    var none: seq<Type> := [];
    assert DropN(none, 0) == none && none + none == none && none[..0] == none;
    var w1 := EnterTry(w, Frame("t", []), none);
    assert w1.tries == [TryEntry("t", false)];
    LateBodyCode(cfg, w1);
    var w2 := w1.(tries := [TryEntry("t", true)], dead := true);
    var w3 := BeginCatches(w2, w);
    LateRethrown();
    LateClausesCode(cfg, w, PopTry(w3));
    LateParts();
  }

  lemma LateParts()
    ensures Cons(UnwindTo("t"), Append(LATE_THROW, One(UnwindOuter("t")))) == LATE_INNER
    ensures Append(One(LabelHere(CatchLabel("t"), true)), Cons(UnwindOuter("t"), Append(Nil, LATE_HANDLER.tl.tl)))
        == LATE_HANDLER
  {}

  // ----- what it does -----

  const LATE_MACHINE := Machine([], [Value(I32, 5)], World([], []), [])

  const LATE_STORE :=
    Store.Store(map[], [Value(I32, 5)], World([], []), [], [], Caller, map[], map[], Exn(0, []), map[])

  /** A validated body on whose last clause the C program falls through: the body leaves local 0
      at 5, the program sets it from a stack variable. */
  lemma LateCatchAllBreaks(host: Host)
    ensures Validated(LATE_ENV, LATE_BODY) && Fresh(LATE_BODY, {}) && Keeps(LATE_ENV, LATE_BODY)
        && !WellBound(false, {""}, LATE_BODY)
    ensures Starts(LATE_MACHINE, LATE_STORE)
    ensures Invoke(LATE_ENV, host, LATE_BODY, LATE_MACHINE, 0) == Values([], LATE_MACHINE)
    ensures var p := Compile(LATE_ENV, false, 0, LATE_BODY);
            var c := Steps(host, p, Running(p.body, LATE_STORE), 8);
            c.Finished? && c.s.locals == [Value(I32, 0)]
  {
    hide Validated, Fresh, Keeps, WellBound, Invoke, Steps, LowerFunc;
    LateValid();
    LateMeans(host);
    LateCode();
    LateRuns(host);
  }

  lemma LateMeans(host: Host)
    ensures Invoke(LATE_ENV, host, LATE_BODY, LATE_MACHINE, 0) == Values([], LATE_MACHINE)
  {
    hide Eval, EvalList;
    var none: seq<Value> := [];
    assert LATE_MACHINE.(stack := []) == LATE_MACHINE;
    LateMeansTry(host);
    EvalCons(LATE_ENV, host, LATE_TRY, [], map[], LATE_MACHINE, 0);
    EvalNil(LATE_ENV, host, map[], LATE_MACHINE, 0);
    assert TopN(none, 0) == none;
  }

  lemma EvalNil(env: Env, host: Host, caught: Caught, m: Machine, fuel: nat)
    ensures EvalList(env, host, [], caught, m, fuel) == Next(m)
  {}

  lemma LateMeansTry(host: Host)
    ensures Eval(LATE_ENV, host, LATE_TRY, map[], LATE_MACHINE, 0) == Next(LATE_MACHINE)
  {
    hide EvalList;
    var m := LATE_MACHINE;
    var none: seq<Value> := [];
    assert TopN(none, 0) == none && DropN(none, 0) == none && none + none == none;
    assert m.(stack := none) == m;
    EvalCons(LATE_ENV, host, Throw(0), [], map[], m, 0);
    assert Eval(LATE_ENV, host, Throw(0), map[], m, 0) == Raise(Exn(0, none), m);
    EvalNil(LATE_ENV, host, map["t" := Exn(0, none)], m, 0);
    assert EvalHandler(LATE_ENV, host, LATE_CATCHES, "t", Exn(0, none), map[], m, 0)
        == Next(m) by { LateMeansHandler(host, m); }
    hide EvalHandler;
  }

  lemma LateMeansHandler(host: Host, m: Machine)
    requires m == LATE_MACHINE && EvalList(LATE_ENV, host, [], map["t" := Exn(0, [])], m, 0) == Next(m)
    ensures EvalHandler(LATE_ENV, host, LATE_CATCHES, "t", Exn(0, []), map[], m, 0) == Next(m)
  {
    hide EvalList;
    assert LATE_CATCHES[0] == Catch(Some(0), []);
    assert m.(stack := []) == m && map[]["t" := Exn(0, [])] == map["t" := Exn(0, [])];
  }

  lemma LateRuns(host: Host)
    ensures var c := Steps(host, Prog(LATE_CODE, 0), Running(LATE_CODE, LATE_STORE), 8);
            c.Finished? && c.s.locals == [Value(I32, 0)]
  {
    hide Step, Find;
    var p := Prog(LATE_CODE, 0);
    var h := Append(LATE_HANDLER, LATE_TAIL);
    var s2 := LATE_STORE.(outer := map["t" := Caller], bufs := map["t" := h]);
    var s3 := s2.(unwind := Buffer("t"));
    LateThrows(host, p, h, s2, s3);
    LateCatches(host, p, h, s3);
    StepsAdd(host, p, Running(LATE_CODE, LATE_STORE), 4, 4);
  }

  /** Into the try, and from the throw to its handler. */
  lemma LateThrows(host: Host, p: Prog, h: Code, s2: Store, s3: Store)
    requires p == Prog(LATE_CODE, 0) && h == Append(LATE_HANDLER, LATE_TAIL)
    requires s2 == LATE_STORE.(outer := map["t" := Caller], bufs := map["t" := h]) && s3 == s2.(unwind := Buffer("t"))
    ensures Steps(host, p, Running(LATE_CODE, LATE_STORE), 4) == Running(h.tl, s3)
  {
    hide Steps, Find;
    LateFound(h);
    var c0 := Running(LATE_CODE, LATE_STORE);
    var c1 := Running(Append(LATE_INNER, LATE_TAIL), s2);
    var c2 := Running(c1.code.tl, s3);
    var c3 := Running(c2.code.tl, s3);
    var c4 := Running(h.tl, s3);
    assert Step(host, p, c0) == c1 && Step(host, p, c1) == c2 && Step(host, p, c2) == c3 && Step(host, p, c3) == c4;
    FourSteps(host, p, c0, c1, c2, c3, c4);
  }

  lemma LateFound(h: Code)
    requires h == Append(LATE_HANDLER, LATE_TAIL)
    ensures Find(CatchLabel("t"), LATE_CODE, Nil) == Some(h.tl)
  {
    hide Append, Find;
    var l := CatchLabel("t");
    NotInTry();
    LateLanding(h);
    LateSearch();
  }

  lemma LateLanding(h: Code)
    requires h == Append(LATE_HANDLER, LATE_TAIL)
    ensures Find(CatchLabel("t"), LATE_HANDLER, LATE_TAIL) == Some(h.tl)
  {
    var l := CatchLabel("t");
    assert Find(l, LATE_HANDLER, LATE_TAIL) == Else(FindStmt(l, LATE_HANDLER.hd, h.tl),
        Find(l, LATE_HANDLER.tl, LATE_TAIL));
  }

  lemma LateSearch()
    requires Find(CatchLabel("t"), LATE_INNER, LATE_TAIL) == None
        && Find(CatchLabel("t"), LATE_HANDLER, LATE_TAIL).Some?
    ensures Find(CatchLabel("t"), LATE_CODE, Nil) == Find(CatchLabel("t"), LATE_HANDLER, LATE_TAIL)
  {
    var l := CatchLabel("t");
    AppendNil(LATE_TAIL);
    assert FindStmt(l, LATE_CODE.hd, LATE_TAIL) == Else(Find(l, LATE_INNER, LATE_TAIL),
        Find(l, LATE_HANDLER, LATE_TAIL));
    assert Find(l, LATE_CODE, Nil) == Else(FindStmt(l, LATE_CODE.hd, Append(LATE_TAIL, Nil)), Find(l, LATE_TAIL, Nil));
  }

  lemma NotInTry()
    ensures Find(CatchLabel("t"), LATE_INNER, LATE_TAIL) == None
  {
    assert Labels(LATE_INNER.tl.tl.tl.tl) == {};
    assert Labels(LATE_INNER.tl.tl.tl) == {};
    assert Labels(LATE_INNER.tl.tl) == {};
    assert Labels(LATE_INNER.tl) == {};
    assert Labels(LATE_INNER) == {};
    FindLabels(CatchLabel("t"), LATE_INNER, LATE_TAIL);
  }

  /** The clause for the tag is taken and empty; then comes what its `else` left over. */
  lemma LateCatches(host: Host, p: Prog, h: Code, s3: Store)
    requires p == Prog(LATE_CODE, 0) && h == Append(LATE_HANDLER, LATE_TAIL)
    requires s3 == LATE_STORE.(outer := map["t" := Caller], bufs := map["t" := h], unwind := Buffer("t"))
    ensures var c := Steps(host, p, Running(h.tl, s3), 4); c.Finished? && c.s.locals == [Value(I32, 0)]
  {
    hide Steps, Find;
    var s5 := s3.(unwind := Caller);
    var s6 := s5.(locals := [Value(I32, 0)]);
    var c4 := Running(h.tl, s3);
    var c5 := Running(h.tl.tl, s5);
    var c6 := Running(h.tl.tl.tl, s5);
    var c7 := Running(LATE_TAIL, s6);
    var c8 := Finished([], s6);
    assert Step(host, p, c4) == c5 && Step(host, p, c5) == c6 && Step(host, p, c6) == c7 && Step(host, p, c7) == c8;
    FourSteps(host, p, c4, c5, c6, c7, c8);
  }

  lemma FourSteps(host: Host, p: Prog, c0: Conf, c1: Conf, c2: Conf, c3: Conf, c4: Conf)
    requires Step(host, p, c0) == c1 && Step(host, p, c1) == c2 && Step(host, p, c2) == c3 && Step(host, p, c3) == c4
    ensures Steps(host, p, c0, 4) == c4
  {
    hide Step;
    assert Steps(host, p, c3, 1) == Steps(host, p, c4, 0);
    assert Steps(host, p, c1, 3) == Steps(host, p, c2, 2);
  }

  // ----- a late catch_all of no statement -----

  const EMPTY_LAST := [Catch(None, [])] + []

  const EMPTY_CATCHES := [Catch(Some(0), [])] + EMPTY_LAST

  const EMPTY_TRY := Try("t", NO_SIG, THROWING, CatchTry, EMPTY_CATCHES, Index(0))

  /** try throw 0 catch 0 catch_all end: a validated body for which the text behind the `else` of
      its one `if` is empty, so that a closing brace follows the `else`. */
  lemma EmptyCatchAll(cfg: Config, w0: Writer, w: Writer)
    ensures var body := [EMPTY_TRY] + [];
            Validated(LATE_ENV, body) && Fresh(body, {}) && Keeps(LATE_ENV, body) && !WellBound(false, {""}, body)
    ensures LowerCatches(cfg, EMPTY_LAST, w0, w).0 == Nil
  {
    hide ValidBody, ValidCatches, ValidList, StackList, StackCatches, Fresh, FreshCatches, WellBound,
        WellBoundCatches, Text, LastText, Names, PopAll;
    var (fs, ms, none) := ([Frame("", [])], [FuncMark(LATE_ENV)], []);
    var st := Stack(false, Known(none));
    EmptyTry(fs, ms);
    ListCons(LATE_ENV, EMPTY_TRY, [], fs, {}, st, true, ms, none, {}, false, {""});
    ListNil(LATE_ENV, fs, {}, st, true, ms, none, {} + ExprNames(EMPTY_TRY), false, {""});
    NothingLeft(LATE_ENV, [EMPTY_TRY] + [], fs, {});
    CodeNil(cfg, ResetTs(w, w0, []));
    hide ExprNames;
  }

  lemma EmptyTry(fs: seq<Frame>, ms: seq<Mark>)
    ensures ValidExpr(LATE_ENV, EMPTY_TRY, fs, {}, Stack(false, Known([]))) == Some(Stack(false, Known([])))
    ensures FreshExpr(EMPTY_TRY, {}) && StackExpr(LATE_ENV, true, EMPTY_TRY, ms, []) == Some([])
        && !WellBoundExpr(false, {""}, EMPTY_TRY)
  {
    hide ValidBody, ValidCatches, StackList, StackCatches, Fresh, FreshCatches, WellBound, WellBoundCatches, Text,
        LastText, Names, PopAll, Resolve;
    var none: seq<Type> := [];
    var fs1, ms1 := fs + [Frame("t", none)], ms + [Mark(Frame("t", none), 0)];
    ThrowingFacts(fs1, {}, {}, {} + {"t"}, true, ms1, none);
    EmptyClauses(fs1, {} + {"t"}, {""} + {"t"}, {} + {"t"} + Names(THROWING), ms1);
    ApplyKnown(none, none, none);
    assert Shift(none, none, none) == Live(none);
    assert none + none == none && none[..0] == none && DropN(none, 0) == none;
  }

  lemma EmptyClauses(fs: seq<Frame>, ex: set<string>, near: set<string>, used: set<string>, ms: seq<Mark>)
    ensures ValidCatches(LATE_ENV, EMPTY_CATCHES, fs, ex, []) && FreshCatches(EMPTY_CATCHES, used)
    ensures StackCatches(LATE_ENV, true, EMPTY_CATCHES, ms, [], []) == Some([])
    ensures LastText(false, near, EMPTY_LAST) == NOTHING && !WellBoundCatches(false, near, EMPTY_CATCHES)
  {
    hide ValidBody, ValidCatches, StackList, StackCatches, Fresh, FreshCatches, WellBound, WellBoundCatches, Text,
        LastText, Names;
    EmptyBody(LATE_ENV, fs, ex);
    CatchCons(LATE_ENV, Catch(None, []), [], fs, ex, [], true, ms, [], [], used, false, near);
    CatchCons(LATE_ENV, Catch(Some(0), []), EMPTY_LAST, fs, ex, [], true, ms, [], [], used, false, near);
    CatchNil(LATE_ENV, fs, ex, [], used);
    ListNil(LATE_ENV, fs, ex, UNREACHED, true, ms, [], used, false, near);
    NoNames(used);
    var none: seq<Type> := [];
    assert none[..0] == none && none + none == none && TagOf(LATE_ENV, 0) == none;
    assert Reset(true, none, none) == Some(none);
  }

  // ----- behind a throw: no operand to take -----

  /** throw 0 drop */
  const DROP_BODY := [Throw(0)] + ([Plain(Drop)] + [])

  /** A validated body on which an assertion of the writer fails: behind the throw the stack is
      polymorphic for validation, and empty for the writer. */
  lemma DropBehindThrow()
    ensures Validated(LATE_ENV, DROP_BODY) && Fresh(DROP_BODY, {}) && WellBound(false, {""}, DROP_BODY)
        && !Fits(LATE_ENV, DROP_BODY)
  {
    hide ValidList, StackList, Fresh, WellBound, Text, PopAll;
    var (fs, ms, none) := ([Frame("", [])], [FuncMark(LATE_ENV)], []);
    PopAllKnown(none, none);
    ListCons(LATE_ENV, Throw(0), [Plain(Drop)] + [], fs, {}, Stack(false, Known(none)), false, ms, none, {}, false,
        {""});
    ListCons(LATE_ENV, Plain(Drop), [], fs, {}, UNREACHED, false, ms, none, {} + {}, false, {""});
    ListNil(LATE_ENV, fs, {}, UNREACHED, false, ms, none, {} + {} + {}, false, {""});
    PopNone(UNREACHED);
  }

  // ----- behind a throw: the types below a block changed -----

  /** One 64-bit local, and one tag without values. */
  const DIP_ENV := Env([], [[]], [I64], [], [])

  const WIDE := Value(I64, 7)

  const ONE := Value(I32, 1)

  const DIP_DEAD := [Throw(0)] + ([Plain(Drop)] + ([Plain(Const(ONE))] + ([Unreachable] + [])))

  const DIP_INNER := [Plain(Const(ONE))] + ([BrIf(Name("b"))] + DIP_DEAD)

  const DIP_BLOCK := Block("b", NO_SIG, DIP_INNER)

  /** i64.const 7 block (br_if 0 (i32.const 1)) throw 0 drop i32.const 1 unreachable end local.set 0 */
  const DIP_BODY := [Plain(Const(WIDE))] + ([DIP_BLOCK] + ([Plain(LocalSet(0))] + []))

  /** Behind the throw the drop takes the operand below the block, and the constant puts one of
      another type in its place. */
  lemma DipDead(fs: seq<Frame>, ms: seq<Mark>, keep: bool, near: set<string>, used: set<string>)
    ensures ValidList(DIP_ENV, DIP_DEAD, fs, {}, Stack(false, Known([]))) == Some(UNREACHED)
    ensures StackList(DIP_ENV, keep, DIP_DEAD, ms, [I64]) == Some([I32])
    ensures Fresh(DIP_DEAD, used) && WellBound(false, near, DIP_DEAD)
  {
    hide ValidList, StackList, Fresh, WellBound, Text, TextOf, Join, PopAll, ValidInstr, Effect, After;
    PopAllKnown([], []);
    var st := Stack(true, [Some(I32)]);
    ListCons(DIP_ENV, Throw(0), [Plain(Drop)] + ([Plain(Const(ONE))] + ([Unreachable] + [])), fs, {},
        Stack(false, Known([])), keep, ms, [I64], used, false, near);
    ListCons(DIP_ENV, Plain(Drop), [Plain(Const(ONE))] + ([Unreachable] + []), fs, {}, UNREACHED, false, ms, [I64],
        used, false, near);
    ListCons(DIP_ENV, Plain(Const(ONE)), [Unreachable] + [], fs, {}, UNREACHED, false, ms, [], used, false, near);
    ListCons(DIP_ENV, Unreachable, [], fs, {}, st, false, ms, [I32], used, false, near);
    ListNil(DIP_ENV, fs, {}, UNREACHED, false, ms, [I32], used, false, near);
    assert used + {} == used;
    DipSteps();
  }

  lemma DipSteps()
    ensures ValidInstr(DIP_ENV, Drop, UNREACHED) == Some(UNREACHED)
    ensures ValidInstr(DIP_ENV, Const(ONE), UNREACHED) == Some(Stack(true, [Some(I32)]))
    ensures After(DIP_ENV, Drop, [I64]) == [] && After(DIP_ENV, Const(ONE), []) == [I32]
    ensures Effect(DIP_ENV, Drop, [I64]).0 == 1 && Effect(DIP_ENV, Const(ONE), []).0 == 0
  {
    assert UNREACHED.ts + Known([I32]) == [Some(I32)];
    PopNone(UNREACHED);
    var none: seq<Type> := [];
    assert DropN(none, 0) + [I32] == [I32] && DropN([I64], 1) + none == none;
  }

  lemma DipInner(fs: seq<Frame>, ms: seq<Mark>, keep: bool, near: set<string>, used: set<string>)
    requires fs == [Frame("", []), Frame("b", [])] && ms == [FuncMark(DIP_ENV), Mark(Frame("b", []), 1)]
    ensures ValidBody(DIP_ENV, DIP_INNER, fs, {}, [], [])
    ensures StackList(DIP_ENV, keep, DIP_INNER, ms, [I64]) == Some([I32])
    ensures Fresh(DIP_INNER, used) && WellBound(false, near, DIP_INNER)
  {
    hide ValidBody, ValidList, StackList, Fresh, WellBound, Text, TextOf, Join, ValidExpr, StackExpr, FreshExpr,
        WellBoundExpr, ExprNames;
    ListCons(DIP_ENV, Plain(Const(ONE)), [BrIf(Name("b"))] + DIP_DEAD, fs, {}, Stack(false, Known([])), keep, ms,
        [I64], used, false, near);
    ListCons(DIP_ENV, BrIf(Name("b")), DIP_DEAD, fs, {}, Stack(false, Known([I32])), keep, ms, [I64, I32], used,
        false, near);
    DipOne(fs, ms, keep, near, used);
    DipBranch(fs, ms, keep);
    DipDead(fs, ms, keep, near, used);
    NeverEnds(DIP_ENV, DIP_INNER, fs);
  }

  lemma NeverEnds(env: Env, es: seq<Expr>, fs: seq<Frame>)
    requires ValidList(env, es, fs, {}, Stack(false, Known([]))) == Some(UNREACHED)
    ensures ValidBody(env, es, fs, {}, [], [])
  {
    PopNone(UNREACHED);
  }

  lemma DipOne(fs: seq<Frame>, ms: seq<Mark>, keep: bool, near: set<string>, used: set<string>)
    ensures ValidExpr(DIP_ENV, Plain(Const(ONE)), fs, {}, Stack(false, Known([]))) == Some(Stack(false, Known([I32])))
    ensures StackExpr(DIP_ENV, keep, Plain(Const(ONE)), ms, [I64]) == Some([I64, I32])
    ensures forall e :: e == Plain(Const(ONE)) || e == BrIf(Name("b")) ==>
        FreshExpr(e, used) && WellBoundExpr(false, near, e) && used + ExprNames(e) == used
  {
    var none: seq<Type> := [];
    ConstStep(DIP_ENV, ONE, none);
    ConstStep(DIP_ENV, ONE, [I64]);
    assert none + [I32] == [I32] && [I64] + [I32] == [I64, I32];
  }

  lemma DipBranch(fs: seq<Frame>, ms: seq<Mark>, keep: bool)
    requires fs == [Frame("", []), Frame("b", [])] && ms == [FuncMark(DIP_ENV), Mark(Frame("b", []), 1)]
    ensures ValidExpr(DIP_ENV, BrIf(Name("b")), fs, {}, Stack(false, Known([I32]))) == Some(Stack(false, Known([])))
    ensures StackExpr(DIP_ENV, keep, BrIf(Name("b")), ms, [I64, I32]) == Some([I64])
  {
    hide PopAll;
    var none: seq<Type> := [];
    assert Resolve(fs, Name("b")) == Some(1) && FramesOf(ms) == fs;
    PopOne(Stack(false, Known([I32])), I32);
    PopAllKnown([I32], [I32]);
    assert [I32][..0] == none && none + none == none && none[..0] == none;
    ApplyKnown(none, none, none);
    assert Shift(none, none, none) == Live(none);
    assert DropN([I64, I32], 1) == [I64] && EndsWith([I32], [I32]);
  }

  lemma DipBlock(fs: seq<Frame>, ms: seq<Mark>, keep: bool, used: set<string>)
    requires fs == [Frame("", [])] && ms == [FuncMark(DIP_ENV)] && "b" !in used
    ensures ValidExpr(DIP_ENV, DIP_BLOCK, fs, {}, Stack(false, Known([I64]))) == Some(Stack(false, Known([I64])))
    ensures StackExpr(DIP_ENV, keep, DIP_BLOCK, ms, [I64]) == if keep then None else Some([I32])
    ensures FreshExpr(DIP_BLOCK, used) && WellBoundExpr(false, {""}, DIP_BLOCK)
  {
    hide ValidBody, StackList, Fresh, WellBound, PopAll;
    var none: seq<Type> := [];
    DipInner(fs + [Frame("b", none)], ms + [Mark(Frame("b", none), 1)], keep, {""} + {"b"}, used + {"b"});
    ApplyKnown([I64], none, none);
    assert [I64][..1] == [I64] && [I64] + none == [I64] && DropN([I64], 0) == [I64] && [I32][..1] + none == [I32];
    assert Shift([I64], none, none) == Live([I64]);
    assert [I64][0] != [I32][0];
  }

  lemma DipSet(fs: seq<Frame>, ms: seq<Mark>, used: set<string>)
    ensures var es := [Plain(LocalSet(0))] + [];
            && ValidList(DIP_ENV, es, fs, {}, Stack(false, Known([I64]))) == Some(Stack(false, Known([])))
            && StackList(DIP_ENV, false, es, ms, [I32]) == Some([]) && Fresh(es, used) && WellBound(false, {""}, es)
  {
    hide ValidList, StackList, Fresh, WellBound, Text, TextOf, ValidInstr;
    var none: seq<Type> := [];
    LocalSetStep(DIP_ENV, 0, none);
    assert none + [I64] == [I64] && DropN([I32], 1) + none == none;
    ListCons(DIP_ENV, Plain(LocalSet(0)), [], fs, {}, Stack(false, Known([I64])), false, ms, [I32], used, false, {""});
    ListNil(DIP_ENV, fs, {}, Stack(false, Known(none)), false, ms, none, used + {}, false, {""});
  }

  lemma DipList(fs: seq<Frame>, ms: seq<Mark>, keep: bool)
    requires fs == [Frame("", [])] && ms == [FuncMark(DIP_ENV)]
    ensures ValidList(DIP_ENV, DIP_BODY, fs, {}, Stack(false, Known([]))) == Some(Stack(false, Known([])))
    ensures StackList(DIP_ENV, keep, DIP_BODY, ms, []) == if keep then None else Some([])
    ensures Fresh(DIP_BODY, {}) && WellBound(false, {""}, DIP_BODY)
  {
    hide ValidList, StackList, Fresh, WellBound, Text, TextOf, ValidInstr, ValidExpr, StackExpr, FreshExpr,
        WellBoundExpr, ExprNames, Effect, After;
    var none: seq<Type> := [];
    var rest := [Plain(LocalSet(0))] + [];
    ConstStep(DIP_ENV, WIDE, none);
    assert none + [I64] == [I64];
    Reads(DIP_ENV, WIDE, 0);
    PlainCons(DIP_ENV, Const(WIDE), [DIP_BLOCK] + rest, fs, {}, keep, ms, none, [I64], {}, false, {""});
    ListCons(DIP_ENV, DIP_BLOCK, rest, fs, {}, Stack(false, Known([I64])), keep, ms, [I64], {}, false, {""});
    DipBlock(fs, ms, keep, {});
    DipSet(fs, ms, {} + ExprNames(DIP_BLOCK));
  }

  /** The body is validated, no assertion of the writer fails on it, and its text is well bound. */
  lemma DipValid()
    ensures Validated(DIP_ENV, DIP_BODY) && Fresh(DIP_BODY, {}) && WellBound(false, {""}, DIP_BODY)
    ensures Fits(DIP_ENV, DIP_BODY) && !Keeps(DIP_ENV, DIP_BODY)
  {
    hide ValidBody, ValidList, StackList, Fresh, WellBound;
    var (fs, ms) := ([Frame("", [])], [FuncMark(DIP_ENV)]);
    DipList(fs, ms, false);
    DipList(fs, ms, true);
    NothingLeft(DIP_ENV, DIP_BODY, fs, {});
  }

  // ----- what it is written as, and what that does -----

  const DIP_CODE :=
    Cons(Assign(0, I64, LitX(WIDE)),
         Cons(Assign(1, I32, LitX(ONE)),
              Cons(IfElse(SlotX(1, I32), One(Goto(UserLabel("b"))), Nil),
                   Cons(LoadExn(0, []), Cons(RtThrow, Cons(Assign(0, I32, LitX(ONE)), Cons(Abort, DIP_END)))))))

  const DIP_END := Cons(LabelHere(UserLabel("b"), true), Cons(SetLocal(0, SlotX(0, I32)), One(ReturnSlots([]))))

  const DIP_MACHINE := Machine([], [Value(I64, 0)], World([], []), [])

  const DIP_STORE :=
    Store.Store(map[], [Value(I64, 0)], World([], []), [], [], Caller, map[], map[], Exn(0, []), map[])

  /** A validated body on which no assertion of the writer fails and whose text is well bound: it
      sets local 0 to the 64-bit constant, the program sets it from a 32-bit variable. */
  lemma DipBreaks(host: Host)
    ensures Validated(DIP_ENV, DIP_BODY) && Fresh(DIP_BODY, {}) && WellBound(false, {""}, DIP_BODY)
    ensures Fits(DIP_ENV, DIP_BODY) && !Keeps(DIP_ENV, DIP_BODY) && Starts(DIP_MACHINE, DIP_STORE)
    ensures Invoke(DIP_ENV, host, DIP_BODY, DIP_MACHINE, 0) == Values([], DIP_MACHINE.(locals := [WIDE]))
    ensures var p := Compile(DIP_ENV, false, 0, DIP_BODY);
            var c := Steps(host, p, Running(p.body, DIP_STORE), 6);
            c.Finished? && c.s.locals == [Value(I32, 0)]
  {
    hide Validated, Fresh, WellBound, Fits, Keeps, Invoke, Steps, LowerFunc;
    DipValid();
    DipMeans(host);
    DipCode();
    DipRuns(host);
  }

  lemma DipMeans(host: Host)
    ensures Invoke(DIP_ENV, host, DIP_BODY, DIP_MACHINE, 0) == Values([], DIP_MACHINE.(locals := [WIDE]))
  {
    hide EvalList, Eval;
    var m := DIP_MACHINE;
    var none: seq<Value> := [];
    var m1, m2 := m.(stack := [WIDE]), m.(locals := [WIDE]);
    assert m.(stack := none) == m && none + none == none && TopN(none, 0) == none;
    EvalCons(DIP_ENV, host, Plain(Const(WIDE)), [DIP_BLOCK] + ([Plain(LocalSet(0))] + []), map[], m, 0);
    EvalCons(DIP_ENV, host, DIP_BLOCK, [Plain(LocalSet(0))] + [], map[], m1, 0);
    EvalCons(DIP_ENV, host, Plain(LocalSet(0)), [], map[], m1, 0);
    EvalNil(DIP_ENV, host, map[], m2, 0);
    DipPlain(host, m, m1, m2);
    DipMeansBlock(host, m1);
  }

  lemma DipPlain(host: Host, m: Machine, m1: Machine, m2: Machine)
    requires m == DIP_MACHINE && m1 == m.(stack := [WIDE]) && m2 == m.(locals := [WIDE])
    ensures Eval(DIP_ENV, host, Plain(Const(WIDE)), map[], m, 0) == Next(m1)
    ensures Eval(DIP_ENV, host, Plain(LocalSet(0)), map[], m1, 0) == Next(m2)
  {
    var none: seq<Value> := [];
    assert DropN(none, 0) + [WIDE] == [WIDE] && DropN([WIDE], 1) == none;
    assert SetAt(m1.locals, 0, WIDE) == [WIDE];
  }

  lemma DipMeansBlock(host: Host, m1: Machine)
    requires m1 == DIP_MACHINE.(stack := [WIDE])
    ensures Eval(DIP_ENV, host, DIP_BLOCK, map[], m1, 0) == Next(m1)
  {
    hide EvalList;
    var none: seq<Value> := [];
    var m, m2 := m1.(stack := none), m1.(stack := [ONE]);
    assert TopN([WIDE], 0) == none && DropN([WIDE], 0) == [WIDE] && [WIDE] + none == [WIDE] && TopN(none, 0) == none;
    EvalCons(DIP_ENV, host, Plain(Const(ONE)), [BrIf(Name("b"))] + DIP_DEAD, map[], m, 0);
    EvalCons(DIP_ENV, host, BrIf(Name("b")), DIP_DEAD, map[], m2, 0);
    assert DropN(none, 0) + [ONE] == [ONE] && DropN([ONE], 1) == none;
    assert Eval(DIP_ENV, host, Plain(Const(ONE)), map[], m, 0) == Next(m2);
    assert Eval(DIP_ENV, host, BrIf(Name("b")), map[], m2, 0) == Branch(ToLabel("b"), m);
  }

  const DIP_ENTRY := LabelEntry(Frame("b", []), BlockKind, 1, 0, false)

  /** The writer inside the block, with the types `ts`. */
  function DipWriter(ts: seq<Type>, used: bool, dead: bool): Writer {
    Writer(ts, [FuncWriter(DIP_ENV).labels[0], DIP_ENTRY.(used := used)], [], dead, true)
  }

  lemma DipDeadCode(cfg: Config)
    requires cfg.env == DIP_ENV
    ensures LowerList(cfg, DIP_DEAD, DipWriter([I64], true, false)) ==
              (Cons(LoadExn(0, []), Cons(RtThrow, Cons(Assign(0, I32, LitX(ONE)), One(Abort)))),
                  DipWriter([I32], true, true))
  {
    hide LowerList, LowerExpr;
    var none: seq<Type> := [];
    var w1, w2, w3 := DipWriter([I64], true, true), DipWriter(none, true, true), DipWriter([I32], true, true);
    CodeCons(cfg, Throw(0), [Plain(Drop)] + ([Plain(Const(ONE))] + ([Unreachable] + [])),
        DipWriter([I64], true, false));
    CodeCons(cfg, Plain(Drop), [Plain(Const(ONE))] + ([Unreachable] + []), w1);
    CodeCons(cfg, Plain(Const(ONE)), [Unreachable] + [], w2);
    CodeCons(cfg, Unreachable, [], w3);
    DipDeadSteps(cfg, DipWriter([I64], true, false), w1, w2, w3);
    assert Append(Nil, One(Abort)) == One(Abort);
  }

  lemma DipDeadSteps(cfg: Config, w: Writer, w1: Writer, w2: Writer, w3: Writer)
    requires cfg.env == DIP_ENV && w == DipWriter([I64], true, false)
    requires w1 == DipWriter([I64], true, true) && w2 == DipWriter([], true, true) && w3 == DipWriter([I32], true, true)
    ensures LowerExpr(cfg, Throw(0), w) == (Cons(LoadExn(0, []), One(RtThrow)), w1)
    ensures LowerExpr(cfg, Plain(Drop), w1) == (Nil, w2)
    ensures LowerExpr(cfg, Plain(Const(ONE)), w2) == (One(Assign(0, I32, LitX(ONE))), w3)
    ensures LowerExpr(cfg, Unreachable, w3) == (One(Abort), w3)
  {
    var none: seq<Type> := [];
    assert TopN([I64], 0) == none && DropN([I64], 1) + none == none && DropN(none, 0) + [I32] == [I32];
  }

  lemma DipInnerCode(cfg: Config)
    requires cfg.env == DIP_ENV
    ensures LowerList(cfg, DIP_INNER, DipWriter([I64], false, false)) ==
              (Cons(Assign(1, I32, LitX(ONE)), Cons(IfElse(SlotX(1, I32), One(Goto(UserLabel("b"))), Nil),
                    Cons(LoadExn(0, []), Cons(RtThrow, Cons(Assign(0, I32, LitX(ONE)), One(Abort)))))),
                        DipWriter([I32], true, true))
  {
    hide LowerList, LowerExpr;
    var w, w1, w2 := DipWriter([I64], false, false), DipWriter([I64, I32], false, false), DipWriter([I64], true, false);
    CodeCons(cfg, Plain(Const(ONE)), [BrIf(Name("b"))] + DIP_DEAD, w);
    CodeCons(cfg, BrIf(Name("b")), DIP_DEAD, w1);
    DipDeadCode(cfg);
    DipConst(cfg, w, w1);
    DipBranchCode(cfg, w1, w2);
  }

  lemma DipConst(cfg: Config, w: Writer, w1: Writer)
    requires w == DipWriter([I64], false, false) && w1 == DipWriter([I64, I32], false, false)
    ensures LowerExpr(cfg, Plain(Const(ONE)), w) == (One(Assign(1, I32, LitX(ONE))), w1)
  {
    assert DropN([I64], 0) + [I32] == [I64, I32];
  }

  lemma DipBranchCode(cfg: Config, w1: Writer, w2: Writer)
    requires w1 == DipWriter([I64, I32], false, false) && w2 == DipWriter([I64], true, false)
    ensures LowerExpr(cfg, BrIf(Name("b")), w1) == (One(IfElse(SlotX(1, I32), One(Goto(UserLabel("b"))), Nil)), w2)
  {
    assert DropN([I64, I32], 1) == [I64];
    var w := w1.(ts := [I64]);
    assert FindLabel(w.labels, Name("b")) == 1;
    assert w.labels[1 := w.labels[1].(used := true)] == w2.labels;
    assert LowerGoto(Name("b"), w) == (One(Goto(UserLabel("b"))), w2);
  }

  lemma DipCode()
    ensures LowerFunc(ConfigOf(DIP_ENV, false, DIP_BODY), DIP_BODY) == DIP_CODE
  {
    hide LowerList, LowerExpr, Rethrown, Append;
    var cfg := ConfigOf(DIP_ENV, false, DIP_BODY);
    var w := FuncWriter(DIP_ENV);
    var w1 := w.(ts := [I64]);
    var w2 := LowerExpr(cfg, DIP_BLOCK, w1).1;
    CodeCons(cfg, Plain(Const(WIDE)), [DIP_BLOCK] + ([Plain(LocalSet(0))] + []), w);
    CodeCons(cfg, DIP_BLOCK, [Plain(LocalSet(0))] + [], w1);
    CodeCons(cfg, Plain(LocalSet(0)), [], w2);
    DipFirst(cfg, w, w1);
    DipBlockCode(cfg, w1);
    DipLast(cfg, w2);
    CodeNil(cfg, LowerExpr(cfg, Plain(LocalSet(0)), w2).1);
    DipAppend();
  }

  lemma DipFirst(cfg: Config, w: Writer, w1: Writer)
    requires w == FuncWriter(DIP_ENV) && w1 == w.(ts := [I64])
    ensures LowerExpr(cfg, Plain(Const(WIDE)), w) == (One(Assign(0, I64, LitX(WIDE))), w1)
  {
    var none: seq<Type> := [];
    assert DropN(none, 0) + [I64] == [I64];
  }

  const DIP_MIDDLE :=
    Cons(Assign(1, I32, LitX(ONE)), Cons(IfElse(SlotX(1, I32), One(Goto(UserLabel("b"))), Nil),
         Cons(LoadExn(0, []), Cons(RtThrow, Cons(Assign(0, I32, LitX(ONE)),
             Cons(Abort, One(LabelHere(UserLabel("b"), true))))))))

  lemma DipBlockCode(cfg: Config, w1: Writer)
    requires cfg.env == DIP_ENV && w1 == FuncWriter(DIP_ENV).(ts := [I64])
    ensures var (c, w2) := LowerExpr(cfg, DIP_BLOCK, w1);
            c == DIP_MIDDLE && w2.ts == [I32] && w2.labels == w1.labels
  {
    hide LowerList;
    var none: seq<Type> := [];
    assert DropN([I64], 0) == [I64] && [I64] + none == [I64] && [I32][..1] + none == [I32];
    var wi := Enter(w1, Frame("b", none), BlockKind, none);
    assert wi == DipWriter([I64], false, false);
    DipInnerCode(cfg);
    DipDeclared(LowerList(cfg, DIP_INNER, wi).0);
  }

  lemma DipDeclared(c: Code)
    requires c == Cons(Assign(1, I32, LitX(ONE)), Cons(IfElse(SlotX(1, I32), One(Goto(UserLabel("b"))), Nil),
                    Cons(LoadExn(0, []), Cons(RtThrow, Cons(Assign(0, I32, LitX(ONE)), One(Abort))))))
    ensures Append(c, One(LabelHere(UserLabel("b"), true))) == DIP_MIDDLE
  {}

  lemma DipLast(cfg: Config, w2: Writer)
    requires w2.ts == [I32]
    ensures var (c, w3) := LowerExpr(cfg, Plain(LocalSet(0)), w2);
        c == One(SetLocal(0, SlotX(0, I32))) && w3.labels == w2.labels
  {}

  lemma DipAppend()
    ensures var last := Append(One(SetLocal(0, SlotX(0, I32))), Nil);
            Append(Append(One(Assign(0, I64, LitX(WIDE))), Append(DIP_MIDDLE, last)),
                Append(Nil, One(ReturnSlots([])))) == DIP_CODE
  {
    assert Append(One(SetLocal(0, SlotX(0, I32))), Nil) == One(SetLocal(0, SlotX(0, I32)));
    AppendAssoc(DIP_MIDDLE, One(SetLocal(0, SlotX(0, I32))), One(ReturnSlots([])));
    assert Append(DIP_MIDDLE, DIP_END.tl) == DIP_CODE.tl;
  }

  lemma DipRuns(host: Host)
    ensures var c := Steps(host, Prog(DIP_CODE, 0), Running(DIP_CODE, DIP_STORE), 6);
            c.Finished? && c.s.locals == [Value(I32, 0)]
  {
    hide Steps, Find;
    var p := Prog(DIP_CODE, 0);
    var s1 := DIP_STORE.(slots := map[(0, I64) := WIDE]);
    var s2 := s1.(slots := map[(0, I64) := WIDE, (1, I32) := ONE]);
    var s3 := s2.(locals := [Value(I32, 0)]);
    DipFound();
    var c0, c1, c2 := Running(DIP_CODE, DIP_STORE), Running(DIP_CODE.tl, s1), Running(DIP_CODE.tl.tl, s2);
    var c3 := Running(Cons(Goto(UserLabel("b")), DIP_CODE.tl.tl.tl), s2);
    var c4, c5, c6 := Running(DIP_END.tl, s2), Running(DIP_END.tl.tl, s3), Finished([], s3);
    DipEarly(host, p, c0, c1, c2, c3);
    DipLate(host, p, c3, c4, c5, c6);
    StepsAdd(host, p, c0, 3, 3);
  }

  lemma DipEarly(host: Host, p: Prog, c0: Conf, c1: Conf, c2: Conf, c3: Conf)
    requires var s1 := DIP_STORE.(slots := map[(0, I64) := WIDE]);
             var s2 := s1.(slots := map[(0, I64) := WIDE, (1, I32) := ONE]);
             && c0 == Running(DIP_CODE, DIP_STORE) && c1 == Running(DIP_CODE.tl, s1)
                 && c2 == Running(DIP_CODE.tl.tl, s2)
             && c3 == Running(Cons(Goto(UserLabel("b")), DIP_CODE.tl.tl.tl), s2)
    ensures Steps(host, p, c0, 3) == c3
  {
    hide Steps, Find;
    assert Step(host, p, c0) == c1 && Step(host, p, c1) == c2 && Step(host, p, c2) == c3;
    MoreSteps(host, p, c0, c1, c2, c3);
  }

  lemma DipLate(host: Host, p: Prog, c3: Conf, c4: Conf, c5: Conf, c6: Conf)
    requires Find(UserLabel("b"), p.body, Nil) == Some(DIP_END.tl)
    requires c3.Running? && c3.code.Cons? && c3.code.hd == Goto(UserLabel("b"))
        && c3.s.slots == map[(0, I64) := WIDE, (1, I32) := ONE]
    requires c3.s.locals == [Value(I64, 0)]
    requires c4 == Running(DIP_END.tl, c3.s) && c5 == Running(DIP_END.tl.tl, c3.s.(locals := [Value(I32, 0)]))
        && c6 == Finished([], c5.s)
    ensures Steps(host, p, c3, 3) == c6
  {
    hide Steps, Find;
    assert Step(host, p, c3) == c4 && Step(host, p, c4) == c5 && Step(host, p, c5) == c6;
    MoreSteps(host, p, c3, c4, c5, c6);
  }

  lemma MoreSteps(host: Host, p: Prog, c0: Conf, c1: Conf, c2: Conf, c3: Conf)
    requires Step(host, p, c0) == c1 && Step(host, p, c1) == c2 && Step(host, p, c2) == c3
    ensures Steps(host, p, c0, 3) == c3
  {
    hide Step;
    assert Steps(host, p, c2, 1) == Steps(host, p, c3, 0);
  }

  lemma DipFound()
    ensures Find(UserLabel("b"), DIP_CODE, Nil) == Some(DIP_END.tl)
  {
    hide Find, FindStmt, Append;
    var l := UserLabel("b");
    var c := DIP_CODE.tl.tl;
    AppendNil(DIP_END.tl);
    FindHere(l, DIP_END.tl);
    FindBehind(l, c.tl.tl.tl.tl.hd, DIP_END);
    FindBehind(l, c.tl.tl.tl.hd, c.tl.tl.tl.tl);
    FindBehind(l, c.tl.tl.hd, c.tl.tl.tl);
    FindBehind(l, c.tl.hd, c.tl.tl);
    NoLabelIf(c.hd);
    FindBehind(l, c.hd, c.tl);
    FindBehind(l, DIP_CODE.tl.hd, c);
    FindBehind(l, DIP_CODE.hd, DIP_CODE.tl);
  }

  lemma NoLabelIf(st: Stmt)
    requires st == IfElse(SlotX(1, I32), One(Goto(UserLabel("b"))), Nil)
    ensures StmtLabels(st) == {}
  {}

  lemma FindHere(l: CLabel, t: Code)
    ensures Find(l, Cons(LabelHere(l, true), t), Nil) == Some(Append(t, Nil))
  {}

  /** A statement without labels in front changes nothing. */
  lemma FindBehind(l: CLabel, st: Stmt, t: Code)
    requires StmtLabels(st) == {}
    ensures Find(l, Cons(st, t), Nil) == Find(l, t, Nil)
  {
    FindStmtLabels(l, st, Append(t, Nil));
  }
}

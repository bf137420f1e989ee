/** The expression visitor: four explicit stacks in place of recursion. Its callbacks come in
    exactly the order of the recursive traversal, and it stops at the first one that fails. */
module ExprVisitor {
  import opened Ir

  datatype Event =
    | On(e: Expr)                                  // an expression without nested expressions
    | BeginBlock(e: Expr) | EndBlock(e: Expr)
    | BeginLoop(e: Expr) | EndLoop(e: Expr)
    | BeginIf(e: Expr) | AfterIfTrue(e: Expr) | EndIf(e: Expr)
    | BeginTry(e: Expr) | OnCatch(e: Expr, index: nat) | OnDelegate(e: Expr) | EndTry(e: Expr)

  // ----- the recursive traversal -----

  function TraceList(es: seq<Expr>): seq<Event>
    decreases es, 0
  {
    if es == [] then [] else Trace(es[0]) + TraceList(es[1..])
  }

  /** The callbacks for an expression, in pre- and post-order. */
  function Trace(e: Expr): seq<Event>
    decreases e, 1
  {
    match e
    case Block(_, _, b) => [BeginBlock(e)] + TraceList(b) + [EndBlock(e)]
    case Loop(_, _, b) => [BeginLoop(e)] + TraceList(b) + [EndLoop(e)]
    case If(_, _, a, b) => [BeginIf(e)] + TraceList(a) + [AfterIfTrue(e)] + TraceList(b) + [EndIf(e)]
    case Try(_, _, b, kind, cs, _) =>
      [BeginTry(e)] + TraceList(b) +
      (match kind
       case PlainTry => [EndTry(e)]
       case CatchTry => TraceCatches(e, cs, 0) + [EndTry(e)]
       case DelegateTry => [OnDelegate(e)])
    case _ => [On(e)]
  }

  /** The clauses of `e` from the `first`th on, which are `cs`. */
  function TraceCatches(e: Expr, cs: seq<Catch>, first: nat): seq<Event>
    decreases cs, 0
  {
    if cs == [] then [] else [OnCatch(e, first)] + TraceList(cs[0].exprs) + TraceCatches(e, cs[1..], first + 1)
  }

  // ----- the stacks -----

  datatype VisitState = Default | BlockState | IfTrueState | IfFalseState | LoopState | TryState | CatchState

  /** The list a state iterates over. */
  function ListOf(st: VisitState, e: Expr, clause: nat): seq<Expr> {
    match st
    case BlockState => if e.Block? then e.body else []
    case LoopState => if e.Loop? then e.body else []
    case IfTrueState => if e.If? then e.thn else []
    case IfFalseState => if e.If? then e.els else []
    case TryState => if e.Try? then e.body else []
    case CatchState => if e.Try? && clause < |e.catches| then e.catches[clause].exprs else []
    case Default => []
  }

  predicate RightKind(st: VisitState, e: Expr, clause: nat) {
    match st
    case Default => true
    case BlockState => e.Block?
    case LoopState => e.Loop?
    case IfTrueState => e.If?
    case IfFalseState => e.If?
    case TryState => e.Try?
    case CatchState => e.Try? && clause < |e.catches|
  }

  function AfterBody(e: Expr): seq<Event>
    requires e.Try?
  {
    match e.kind
    case PlainTry => [EndTry(e)]
    case CatchTry => TraceCatches(e, e.catches, 0) + [EndTry(e)]
    case DelegateTry => [OnDelegate(e)]
  }

  /** The callbacks still to come for a stack entry, with its iterator at `i`. */
  function Rest(st: VisitState, e: Expr, i: nat, clause: nat): seq<Event>
    requires RightKind(st, e, clause) && i <= |ListOf(st, e, clause)|
  {
    var left := TraceList(ListOf(st, e, clause)[i..]);
    match st
    case Default => Trace(e)
    case BlockState => left + [EndBlock(e)]
    case LoopState => left + [EndLoop(e)]
    case IfTrueState => left + ([AfterIfTrue(e)] + TraceList(e.els) + [EndIf(e)])
    case IfFalseState => left + [EndIf(e)]
    case TryState => left + AfterBody(e)
    case CatchState => left + (TraceCatches(e, e.catches[clause + 1..], clause + 1) + [EndTry(e)])
  }

  /** The four stacks. Iterators belong to the entries that are not Default, clause numbers to
      those in a clause. */
  datatype Stacks = Stacks(states: seq<VisitState>, exprs: seq<Expr>, iters: seq<nat>, clauses: seq<nat>) {
    function Top(): VisitState requires states != [] { states[|states| - 1] }
    function TopIter(): nat { if iters == [] then 0 else iters[|iters| - 1] }
    function TopClause(): nat { if clauses == [] then 0 else clauses[|clauses| - 1] }

    /** The stacks without their top entry. */
    function Below(): Stacks
      requires states != [] && |exprs| == |states|
    {
      var t := Top();
      Stacks(states[..|states| - 1], exprs[..|exprs| - 1],
             if t == Default || iters == [] then iters else iters[..|iters| - 1],
             if t != CatchState || clauses == [] then clauses else clauses[..|clauses| - 1])
    }
  }

  /** The four stacks fit together. */
  predicate Lined(s: Stacks)
    decreases |s.states|
  {
    && |s.exprs| == |s.states|
    && (if s.states == [] then s.iters == [] && s.clauses == []
        else
          && (s.Top() != Default ==> s.iters != []) && (s.Top() == CatchState ==> s.clauses != [])
          && RightKind(s.Top(), s.exprs[|s.exprs| - 1], s.TopClause())
          && (s.Top() != Default ==> s.TopIter() <= |ListOf(s.Top(), s.exprs[|s.exprs| - 1], s.TopClause())|)
          && Lined(s.Below()))
  }

  /** The callbacks still to come, from the top of the stacks down. */
  function Remaining(s: Stacks): seq<Event>
    requires Lined(s)
    decreases |s.states|
  {
    if s.states == [] then []
    else
      Rest(s.Top(), s.exprs[|s.exprs| - 1], if s.Top() == Default then 0 else s.TopIter(), s.TopClause())
          + Remaining(s.Below())
  }

  // ----- a measure on what is pending -----

  function WeightList(es: seq<Expr>): nat
    decreases es, 0
  {
    if es == [] then 0 else 1 + Weight(es[0]) + WeightList(es[1..])
  }

  /** Turns of the loop an expression takes. */
  function Weight(e: Expr): nat
    decreases e, 1
  {
    match e
    case Block(_, _, b) => 2 + WeightList(b)
    case Loop(_, _, b) => 2 + WeightList(b)
    case If(_, _, a, b) => 3 + WeightList(a) + WeightList(b)
    case Try(_, _, b, _, cs, _) => 2 + WeightList(b) + WeightCatches(cs)
    case _ => 1
  }

  function WeightCatches(cs: seq<Catch>): nat
    decreases cs, 0
  {
    if cs == [] then 0 else 1 + WeightList(cs[0].exprs) + WeightCatches(cs[1..])
  }

  function RestWeight(st: VisitState, e: Expr, i: nat, clause: nat): nat
    requires RightKind(st, e, clause) && i <= |ListOf(st, e, clause)|
  {
    var left := WeightList(ListOf(st, e, clause)[i..]);
    match st
    case Default => Weight(e)
    case IfTrueState => 2 + left + WeightList(e.els)
    case TryState => 1 + left + WeightCatches(e.catches)
    case CatchState => 1 + left + WeightCatches(e.catches[clause + 1..])
    case _ => 1 + left
  }

  function Pending(s: Stacks): nat
    requires Lined(s)
    decreases |s.states|
  {
    if s.states == [] then 0
    else
      RestWeight(s.Top(), s.exprs[|s.exprs| - 1], if s.Top() == Default then 0 else s.TopIter(), s.TopClause())
          + Pending(s.Below())
  }

  // ----- pushing and popping -----

  function WithDefault(s: Stacks, e: Expr): Stacks { s.(states := s.states + [Default], exprs := s.exprs + [e]) }

  function WithList(s: Stacks, st: VisitState, e: Expr): Stacks {
    Stacks(s.states + [st], s.exprs + [e], s.iters + [0], s.clauses)
  }

  function WithCatch(s: Stacks, e: Expr, clause: nat): Stacks {
    Stacks(s.states + [CatchState], s.exprs + [e], s.iters + [0], s.clauses + [clause])
  }

  /** The top entry's iterator moved on. */
  function Advanced(s: Stacks): Stacks
    requires s.iters != []
  {
    s.(iters := s.iters[|s.iters| - 1 := s.iters[|s.iters| - 1] + 1])
  }

  lemma PushDefaultIs(s: Stacks, e: Expr)
    requires Lined(s)
    ensures var t := WithDefault(s, e);
            Lined(t) && t.Below() == s && Remaining(t) == Trace(e) + Remaining(s)
                && Pending(t) == Weight(e) + Pending(s)
  {
    var t := WithDefault(s, e);
    assert t.Below() == s;
  }

  lemma PushListIs(s: Stacks, st: VisitState, e: Expr)
    requires Lined(s) && st != Default && st != CatchState && RightKind(st, e, 0)
    ensures var t := WithList(s, st, e);
            && Lined(t) && t.Below() == s
            && Remaining(t) == Rest(st, e, 0, 0) + Remaining(s) && Pending(t) == RestWeight(st, e, 0, 0) + Pending(s)
  {
    var t := WithList(s, st, e);
    assert t.Below() == s;
  }

  lemma PushCatchIs(s: Stacks, e: Expr, clause: nat)
    requires Lined(s) && RightKind(CatchState, e, clause)
    ensures var t := WithCatch(s, e, clause);
            && Lined(t) && t.Below() == s
            && Remaining(t) == Rest(CatchState, e, 0, clause) + Remaining(s)
                && Pending(t) == RestWeight(CatchState, e, 0, clause) + Pending(s)
  {
    var t := WithCatch(s, e, clause);
    assert t.Below() == s;
  }

  /** The top entry of well-formed stacks. */
  predicate TopOk(s: Stacks)
    requires s.states != [] && |s.exprs| == |s.states|
  {
    && (s.Top() != Default ==> s.iters != []) && (s.Top() == CatchState ==> s.clauses != [])
    && RightKind(s.Top(), s.exprs[|s.exprs| - 1], s.TopClause())
    && (s.Top() != Default ==> s.TopIter() <= |ListOf(s.Top(), s.exprs[|s.exprs| - 1], s.TopClause())|)
  }

  lemma Unfold(s: Stacks)
    requires s.states != [] && |s.exprs| == |s.states|
    ensures Lined(s) <==> TopOk(s) && Lined(s.Below())
    ensures Lined(s) ==>
              var rest := if s.Top() == Default then 0 else s.TopIter();
              && rest <= |ListOf(s.Top(), s.exprs[|s.exprs| - 1], s.TopClause())|
              && Remaining(s) == Rest(s.Top(), s.exprs[|s.exprs| - 1], rest, s.TopClause()) + Remaining(s.Below())
              && Pending(s) == RestWeight(s.Top(), s.exprs[|s.exprs| - 1], rest, s.TopClause()) + Pending(s.Below())
  {
    hide Rest, RestWeight, ListOf;
  }

  lemma LinedSizes(s: Stacks)
    requires Lined(s)
    ensures |s.exprs| == |s.states|
  {}

  /** Taking the next expression of the top list. */
  lemma AdvanceIs(s: Stacks)
    requires Lined(s) && s.states != [] && |s.exprs| == |s.states| && s.Top() != Default && s.iters != []
    requires s.TopIter() < |ListOf(s.Top(), s.exprs[|s.exprs| - 1], s.TopClause())|
    ensures var e := ListOf(s.Top(), s.exprs[|s.exprs| - 1], s.TopClause())[s.TopIter()];
            var t := WithDefault(Advanced(s), e);
            Lined(t) && Remaining(t) == Remaining(s) && Pending(t) + 1 == Pending(s)
  {
    hide Lined, Remaining, Pending, Rest, RestWeight, ListOf, Trace, Weight, RightKind;
    var a := Advanced(s);
    var (st, e, i, clause) := (s.Top(), s.exprs[|s.exprs| - 1], s.TopIter(), s.TopClause());
    var x := ListOf(st, e, clause)[i];
    assert a.Below() == s.Below() && a.TopIter() == i + 1 && a.TopClause() == clause && a.Top() == st
        && a.exprs == s.exprs;
    Unfold(s);
    Unfold(a);
    PushDefaultIs(a, x);
    RestNext(st, e, i, clause);
    JoinThree(Trace(x), Rest(st, e, i + 1, clause), Remaining(s.Below()));
  }

  lemma RestNext(st: VisitState, e: Expr, i: nat, clause: nat)
    requires st != Default && RightKind(st, e, clause) && i < |ListOf(st, e, clause)|
    ensures Rest(st, e, i, clause) == Trace(ListOf(st, e, clause)[i]) + Rest(st, e, i + 1, clause)
    ensures RestWeight(st, e, i, clause) == 1 + Weight(ListOf(st, e, clause)[i]) + RestWeight(st, e, i + 1, clause)
  {
    var list := ListOf(st, e, clause);
    hide Trace, TraceCatches, TraceList, ListOf, Weight, WeightCatches, WeightList, AfterBody;
    ListNext(list, i);
  }

  lemma ListNext(list: seq<Expr>, i: nat)
    requires i < |list|
    ensures TraceList(list[i..]) == Trace(list[i]) + TraceList(list[i + 1..])
    ensures WeightList(list[i..]) == 1 + Weight(list[i]) + WeightList(list[i + 1..])
  {
    hide Trace, Weight;
    assert list[i..][0] == list[i] && list[i..][1..] == list[i + 1..];
  }

  lemma JoinThree<T>(a: seq<T>, b: seq<T>, c: seq<T>)
    ensures a + (b + c) == a + b + c
  {}

  /** The entry for an expression that has just begun: its first callback has been made, the
      rest of its trace is to come. */
  lemma Begun(e: Expr)
    ensures e.Block? ==>
        Trace(e) == [BeginBlock(e)] + Rest(BlockState, e, 0, 0) && Weight(e) == 1 + RestWeight(BlockState, e, 0, 0)
    ensures e.Loop? ==>
        Trace(e) == [BeginLoop(e)] + Rest(LoopState, e, 0, 0) && Weight(e) == 1 + RestWeight(LoopState, e, 0, 0)
    ensures e.If? ==>
        Trace(e) == [BeginIf(e)] + Rest(IfTrueState, e, 0, 0) && Weight(e) == 1 + RestWeight(IfTrueState, e, 0, 0)
    ensures e.Try? ==>
        Trace(e) == [BeginTry(e)] + Rest(TryState, e, 0, 0) && Weight(e) == 1 + RestWeight(TryState, e, 0, 0)
    ensures !e.Block? && !e.Loop? && !e.If? && !e.Try? ==> Trace(e) == [On(e)] && Weight(e) == 1
  {
    hide TraceList, WeightList, TraceCatches, WeightCatches;
    if e.Block? || e.Loop? || e.Try? { assert e.body[0..] == e.body; }
    if e.If? { assert e.thn[0..] == e.thn; }
  }

  /** The second arm of a conditional, about to begin. */
  lemma SecondArm(e: Expr)
    requires e.If?
    ensures Rest(IfFalseState, e, 0, 0) == TraceList(e.els) + [EndIf(e)]
        && RestWeight(IfFalseState, e, 0, 0) == 1 + WeightList(e.els)
  {
    assert e.els[0..] == e.els;
  }

  /** The callbacks still to come for an entry whose list is done, and their weight. */
  function EndEvents(st: VisitState, e: Expr, clause: nat): seq<Event>
    requires RightKind(st, e, clause)
  {
    match st
    case Default => []
    case BlockState => [EndBlock(e)]
    case LoopState => [EndLoop(e)]
    case IfTrueState => [AfterIfTrue(e)] + TraceList(e.els) + [EndIf(e)]
    case IfFalseState => [EndIf(e)]
    case TryState => AfterBody(e)
    case CatchState => TraceCatches(e, e.catches[clause + 1..], clause + 1) + [EndTry(e)]
  }

  function EndWeight(st: VisitState, e: Expr, clause: nat): nat
    requires RightKind(st, e, clause)
  {
    match st
    case IfTrueState => 2 + WeightList(e.els)
    case TryState => 1 + WeightCatches(e.catches)
    case CatchState => 1 + WeightCatches(e.catches[clause + 1..])
    case _ => 1
  }

  lemma AtEnd(st: VisitState, e: Expr, clause: nat)
    requires st != Default && RightKind(st, e, clause)
    ensures var n := |ListOf(st, e, clause)|;
            Rest(st, e, n, clause) == EndEvents(st, e, clause)
                && RestWeight(st, e, n, clause) == EndWeight(st, e, clause)
  {
    hide AfterBody, TraceCatches, WeightCatches, Trace, Weight;
    var list := ListOf(st, e, clause);
    assert list[|list|..] == [];
  }

  lemma TopAtEnd(s: Stacks)
    requires Lined(s) && s.states != [] && |s.exprs| == |s.states| && s.Top() != Default
    requires s.TopIter() == |ListOf(s.Top(), s.exprs[|s.exprs| - 1], s.TopClause())|
    ensures var (st, e, clause) := (s.Top(), s.exprs[|s.exprs| - 1], s.TopClause());
            && RightKind(st, e, clause) && (st == CatchState ==> s.clauses != []) && Lined(s.Below())
            && Remaining(s) == EndEvents(st, e, clause) + Remaining(s.Below())
                && Pending(s) == EndWeight(st, e, clause) + Pending(s.Below())
  {
    hide Lined, Remaining, Pending, ListOf, EndEvents, EndWeight, Rest, RestWeight, RightKind;
    Unfold(s);
    AtEnd(s.Top(), s.exprs[|s.exprs| - 1], s.TopClause());
  }

  // ----- the class -----

  /** Whether the delegate goes on after the callbacks so far. */
  type Accepts = seq<Event> -> bool

  /** The delegate accepted every callback after the first `from`. */
  predicate Accepted(accepts: Accepts, log: seq<Event>, from: nat) {
    forall i | from < i <= |log| :: accepts(log[..i])
  }

  /** A log that stopped at the first callback the delegate refused. */
  predicate StoppedIn(accepts: Accepts, log: seq<Event>, all: seq<Event>, from: nat) {
    from < |log| <= |all| && log == all[..|log|] && Accepted(accepts, log[..|log| - 1], from) && !accepts(log)
  }

  class Visitor {
    const accepts: Accepts
    var stateStack: seq<VisitState>
    var exprStack: seq<Expr>
    var exprIterStack: seq<nat>
    var catchIndexStack: seq<nat>
    var log: seq<Event>

    constructor (accepts: Accepts)
      ensures this.accepts == accepts && S() == Stacks([], [], [], []) && log == []
    {
      this.accepts := accepts;
      stateStack, exprStack, exprIterStack, catchIndexStack, log := [], [], [], [], [];
    }

    ghost function S(): Stacks
      reads this
    {
      Stacks(stateStack, exprStack, exprIterStack, catchIndexStack)
    }

    method Call(ev: Event) returns (ok: bool)
      modifies this`log
      ensures log == old(log) + [ev] && ok == accepts(log)
    {
      log := log + [ev];
      ok := accepts(log);
    }

    method PushDefault(e: Expr)
      modifies this`stateStack, this`exprStack
      ensures S() == WithDefault(old(S()), e)
    {
      stateStack, exprStack := stateStack + [Default], exprStack + [e];
    }

    method PopDefault()
      requires Lined(S()) && stateStack != [] && S().Top() == Default
      modifies this`stateStack, this`exprStack
      ensures S() == old(S().Below())
    {
      stateStack, exprStack := stateStack[..|stateStack| - 1], exprStack[..|exprStack| - 1];
    }

    method PushExprlist(st: VisitState, e: Expr)
      modifies this`stateStack, this`exprStack, this`exprIterStack
      ensures S() == WithList(old(S()), st, e)
    {
      stateStack, exprStack, exprIterStack := stateStack + [st], exprStack + [e], exprIterStack + [0];
    }

    method PopExprlist()
      requires Lined(S()) && stateStack != [] && S().Top() != Default && S().Top() != CatchState
      modifies this`stateStack, this`exprStack, this`exprIterStack
      ensures S() == old(S().Below())
    {
      stateStack, exprStack := stateStack[..|stateStack| - 1], exprStack[..|exprStack| - 1];
      exprIterStack := exprIterStack[..|exprIterStack| - 1];
    }

    method PushCatch(e: Expr, clause: nat)
      modifies this`stateStack, this`exprStack, this`exprIterStack, this`catchIndexStack
      ensures S() == WithCatch(old(S()), e, clause)
    {
      stateStack, exprStack, exprIterStack := stateStack + [CatchState], exprStack + [e], exprIterStack + [0];
      catchIndexStack := catchIndexStack + [clause];
    }

    method PopCatch()
      requires Lined(S()) && stateStack != [] && S().Top() == CatchState
      modifies this`stateStack, this`exprStack, this`exprIterStack, this`catchIndexStack
      ensures S() == old(S().Below())
    {
      stateStack, exprStack := stateStack[..|stateStack| - 1], exprStack[..|exprStack| - 1];
      exprIterStack := exprIterStack[..|exprIterStack| - 1];
      catchIndexStack := catchIndexStack[..|catchIndexStack| - 1];
    }

    /** The next expression of the top list, if there is one. */
    method PushNext() returns (more: bool)
      requires Lined(S()) && stateStack != [] && S().Top() != Default
      modifies this`stateStack, this`exprStack, this`exprIterStack
      ensures Lined(S()) && log == old(log)
      ensures more ==> Remaining(S()) == old(Remaining(S())) && Pending(S()) < old(Pending(S()))
      ensures !more ==> S() == old(S()) && S().TopIter() == |ListOf(S().Top(), exprStack[|exprStack| - 1],
          S().TopClause())|
    {
      hide Lined, Remaining, Pending, ListOf, Rest, RestWeight;
      LinedSizes(S());
      Unfold(S());
      var clause := if |catchIndexStack| == 0 then 0 else catchIndexStack[|catchIndexStack| - 1];
      var list := ListOf(stateStack[|stateStack| - 1], exprStack[|exprStack| - 1], clause);
      var i := exprIterStack[|exprIterStack| - 1];
      more := i < |list|;
      if more {
        AdvanceIs(S());
        exprIterStack := exprIterStack[|exprIterStack| - 1 := i + 1];
        PushDefault(list[i]);
      }
    }

    /** The first callback of an expression with a list, and its entry on the stacks. */
    method Begin(ev: Event, st: VisitState, e: Expr) returns (ok: bool)
      requires Lined(S()) && st != Default && st != CatchState && RightKind(st, e, 0)
      modifies this
      ensures log == old(log) + [ev] && ok == accepts(log)
      ensures ok ==> Lined(S()) && log + Remaining(S()) == old(log) + ([ev] + Rest(st, e, 0, 0) + old(Remaining(S())))
                     && Pending(S()) == RestWeight(st, e, 0, 0) + old(Pending(S()))
    {
      hide Lined, Remaining, Pending, Rest, RestWeight, ListOf, RightKind;
      ok := Call(ev);
      if ok {
        PushListIs(S(), st, e);
        PushExprlist(st, e);
      }
    }

    /** An entry of Default state: its callback, and its list if it has one. */
    method HandleDefault(e: Expr) returns (ok: bool)
      requires Lined(S())
      modifies this
      ensures ok == accepts(log) && Trace(e) != [] && log == old(log) + [Trace(e)[0]]
      ensures ok ==>
          Lined(S()) && log + Remaining(S()) == old(log) + (Trace(e) + old(Remaining(S())))
              && Pending(S()) < Weight(e) + old(Pending(S()))
    {
      hide Lined, Remaining, Pending, Trace, Weight, Rest, RestWeight, ListOf;
      Begun(e);
      if e.Block? { ok := Begin(BeginBlock(e), BlockState, e); }
      else if e.Loop? { ok := Begin(BeginLoop(e), LoopState, e); }
      else if e.If? { ok := Begin(BeginIf(e), IfTrueState, e); }
      else if e.Try? { ok := Begin(BeginTry(e), TryState, e); }
      else { ok := Call(On(e)); }
    }

    /** The last callback of a list, and its entry off the stacks. */
    method End(ev: Event) returns (ok: bool)
      requires Lined(S()) && stateStack != [] && S().Top() != Default && S().Top() != CatchState
      modifies this
      ensures log == old(log) + [ev] && ok == accepts(log) && (ok ==> S() == old(S().Below()))
    {
      ok := Call(ev);
      if ok { PopExprlist(); }
    }

    /** The end of the top list. */
    method EndList() returns (ok: bool)
      requires Lined(S()) && stateStack != [] && S().Top() != Default
      requires S().TopIter() == |ListOf(S().Top(), exprStack[|exprStack| - 1], S().TopClause())|
      modifies this
      ensures ok == accepts(log) && old(Remaining(S())) != [] && log == old(log) + [old(Remaining(S()))[0]]
      ensures ok ==>
          Lined(S()) && log + Remaining(S()) == old(log) + old(Remaining(S())) && Pending(S()) < old(Pending(S()))
    {
      hide Lined, Remaining, Pending, Trace, Weight, TraceCatches, WeightCatches, TraceList, WeightList, ListOf,
          AfterBody, Rest, RestWeight;
      LinedSizes(S());
      TopAtEnd(S());
      var st := stateStack[|stateStack| - 1];
      var e := exprStack[|exprStack| - 1];
      if st == BlockState { ok := End(EndBlock(e)); }
      else if st == LoopState { ok := End(EndLoop(e)); }
      else if st == IfFalseState { ok := End(EndIf(e)); }
      else if st == IfTrueState { ok := EndFirstArm(e); }
      else if st == TryState {
        PopExprlist();
        ok := EndTryBody(e);
      } else {
        var clause := catchIndexStack[|catchIndexStack| - 1] + 1;
        PopCatch();
        ok := NextCatch(e, clause);
      }
    }

    method EndFirstArm(e: Expr) returns (ok: bool)
      requires Lined(S()) && stateStack != [] && S().Top() == IfTrueState && e.If?
      modifies this
      ensures ok == accepts(log) && log == old(log) + [AfterIfTrue(e)]
      ensures ok ==> Lined(old(S().Below())) && Lined(S())
                     && log + Remaining(S()) == old(log)
                         + ([AfterIfTrue(e)] + TraceList(e.els) + [EndIf(e)] + Remaining(old(S().Below())))
                     && Pending(S()) == 1 + WeightList(e.els) + Pending(old(S().Below()))
    {
      hide Lined, Remaining, Pending, TraceList, WeightList, Rest, RestWeight, ListOf;
      LinedSizes(S());
      Unfold(S());
      ok := End(AfterIfTrue(e));
      if ok {
        SecondArm(e);
        PushListIs(S(), IfFalseState, e);
        PushExprlist(IfFalseState, e);
      }
    }

    method EndTryBody(e: Expr) returns (ok: bool)
      requires e.Try? && Lined(S())
      modifies this
      ensures ok == accepts(log) && AfterBody(e) != [] && log == old(log) + [AfterBody(e)[0]]
      ensures ok ==>
          Lined(S()) && log + Remaining(S()) == old(log) + (AfterBody(e) + old(Remaining(S())))
              && Pending(S()) < 1 + WeightCatches(e.catches) + old(Pending(S()))
    {
      hide Lined, Remaining, Pending, Trace, Weight;
      match e.kind {
        case CatchTry =>
          assert e.catches[0..] == e.catches;
          ok := NextCatch(e, 0);
        case DelegateTry => ok := Call(OnDelegate(e));
        case PlainTry => ok := Call(EndTry(e));
      }
    }

    /** The next clause, or the end of the try. */
    method NextCatch(e: Expr, clause: nat) returns (ok: bool)
      requires e.Try? && clause <= |e.catches| && Lined(S())
      modifies this
      ensures var todo := TraceCatches(e, e.catches[clause..], clause) + [EndTry(e)];
              && ok == accepts(log) && log == old(log) + [todo[0]]
              && (ok ==>
                  Lined(S()) && log + Remaining(S()) == old(log) + (todo + old(Remaining(S())))
                      && Pending(S()) < 1 + WeightCatches(e.catches[clause..]) + old(Pending(S())))
    {
      hide Lined, Remaining, Pending, Trace, Weight, TraceList, WeightList;
      if clause < |e.catches| {
        assert e.catches[clause..][0] == e.catches[clause] && e.catches[clause..][1..] == e.catches[clause + 1..];
        ok := Call(OnCatch(e, clause));
        if ok {
          PushCatchIs(S(), e, clause);
          PushCatch(e, clause);
          assert e.catches[clause].exprs[0..] == e.catches[clause].exprs;
        }
      } else {
        ok := Call(EndTry(e));
      }
    }

    /** The whole traversal: all callbacks in the recursive order and empty stacks, or a stop at
        the first refused callback. */
    method VisitExpr(root: Expr) returns (ok: bool)
      modifies this
      ensures ok ==>
          log == old(log) + Trace(root) && S() == Stacks([], [], [], []) && Accepted(accepts, log, |old(log)|)
      ensures !ok ==> StoppedIn(accepts, log, old(log) + Trace(root), |old(log)|)
    {
      hide Lined, Remaining, Pending, Trace, Rest, RestWeight, ListOf, Weight, RightKind, TraceList, WeightList,
          Accepted, StoppedIn;
      stateStack, exprStack, exprIterStack, catchIndexStack := [], [], [], [];
      ghost var all, from := log + Trace(root), |log|;
      EmptyLined();
      AcceptedNone(accepts, log);
      PushDefaultIs(S(), root);
      PushDefault(root);
      while |stateStack| != 0
        invariant Lined(S()) && log + Remaining(S()) == all && |log| >= from && Accepted(accepts, log, from)
        decreases Pending(S())
      {
        ghost var before, todo := log, Remaining(S());
        LinedSizes(S());
        Unfold(S());
        if stateStack[|stateStack| - 1] == Default {
          var e := exprStack[|exprStack| - 1];
          PopDefault();
          DefaultTop(e);
          ok := HandleDefault(e);
          OneCallback(accepts, before, todo, all, from);
          if !ok { return; }
        } else {
          var more := PushNext();
          if !more {
            ok := EndList();
            OneCallback(accepts, before, todo, all, from);
            if !ok { return; }
          }
        }
      }
      StacksEmpty(S());
      assert log + [] == log;
      return true;
    }

    lemma AcceptedNone(accepts: Accepts, log: seq<Event>)
      ensures Accepted(accepts, log, |log|)
    {}

    /** The next of the callbacks to come: either accepted, or where the traversal stops. */
    lemma OneCallback(accepts: Accepts, before: seq<Event>, todo: seq<Event>, all: seq<Event>, from: nat)
      requires before + todo == all && todo != [] && from <= |before| && Accepted(accepts, before, from)
      ensures var log := before + [todo[0]];
          if accepts(log) then Accepted(accepts, log, from) else StoppedIn(accepts, log, all, from)
    {
      var log := before + [todo[0]];
      assert log[..|before|] == before && log[..|log|] == log;
      forall i | from < i <= |before| ensures accepts(log[..i]) { assert log[..i] == before[..i]; }
    }

    lemma DefaultTop(e: Expr)
      ensures Rest(Default, e, 0, 0) == Trace(e) && RestWeight(Default, e, 0, 0) == Weight(e) && Trace(e) != []
      ensures forall c ::
          ListOf(Default, e, c) == [] && Rest(Default, e, 0, c) == Trace(e) && RestWeight(Default, e, 0, c) == Weight(e)
    {}

    lemma EmptyLined()
      ensures Lined(Stacks([], [], [], [])) && Remaining(Stacks([], [], [], [])) == []
    {}

    lemma StacksEmpty(s: Stacks)
      requires Lined(s) && s.states == []
      ensures s == Stacks([], [], [], []) && Remaining(s) == []
    {}

    lemma AcceptedJoin(accepts: Accepts, before: seq<Event>, log: seq<Event>, from: nat)
      requires before <= log && Accepted(accepts, before, from) && Accepted(accepts, log, |before|)
      ensures Accepted(accepts, log, from)
    {
      forall i | from < i <= |log| ensures accepts(log[..i]) {
        if i <= |before| { assert log[..i] == before[..i]; }
      }
    }

    lemma StoppedEarlier(accepts: Accepts, before: seq<Event>, now: seq<Event>, log: seq<Event>, more: seq<Event>,
        from: nat)
      requires StoppedIn(accepts, log, before + now, |before|) && from <= |before| && Accepted(accepts, before, from)
      ensures StoppedIn(accepts, log, before + (now + more), from)
    {
      assert (before + (now + more))[..|log|] == (before + now)[..|log|];
      AcceptedJoin(accepts, before, log[..|log| - 1], from);
    }

    method VisitExprList(es: seq<Expr>) returns (ok: bool)
      modifies this
      ensures ok ==> log == old(log) + TraceList(es) && Accepted(accepts, log, |old(log)|)
      ensures !ok ==> StoppedIn(accepts, log, old(log) + TraceList(es), |old(log)|)
    {
      hide Trace, StoppedIn, Accepted;
      var i := 0;
      assert es[0..] == es;
      AcceptedNone(accepts, log);
      ghost var all, from := log + TraceList(es), |log|;
      while i < |es|
        invariant 0 <= i <= |es| && |log| >= from && Accepted(accepts, log, from)
        invariant log + TraceList(es[i..]) == all
      {
        ghost var before := log;
        ok := VisitExpr(es[i]);
        assert es[i..][1..] == es[i + 1..];
        if !ok {
          StoppedEarlier(accepts, before, Trace(es[i]), log, TraceList(es[i + 1..]), from);
          return;
        }
        AcceptedJoin(accepts, before, log, from);
        i := i + 1;
      }
      return true;
    }
  }
}

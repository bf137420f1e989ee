/** The order of the visitor's callbacks, stated without recursion over the tree: an automaton
    that knows the list it is in and how far it has got accepts one sequence of callbacks for a
    list, and that is the traversal. */
module VisitOrder {
  import opened Ir
  import opened ExprVisitor

  // ----- the automaton -----

  /** A list that is being visited: whose it is, how many of its expressions have been begun, and
      which of its owner's lists it is: the first, an else arm, or a clause counted from 1. */
  datatype Frame = Frame(owner: Option<Expr>, list: seq<Expr>, next: nat, part: nat)

  /** The expression whose turn it is. */
  predicate IsNext(fs: seq<Frame>, e: Expr) {
    fs != [] && var f := fs[|fs| - 1]; f.next < |f.list| && f.list[f.next] == e
  }

  function Begun1(fs: seq<Frame>): seq<Frame>
    requires fs != []
  {
    var f := fs[|fs| - 1];
    fs[..|fs| - 1] + [f.(next := f.next + 1)]
  }

  /** The `part`th list of `e` has been visited to its end. */
  predicate Done(fs: seq<Frame>, e: Expr, part: nat) {
    fs != [] && var f := fs[|fs| - 1]; f.owner == Some(e) && f.part == part && f.next == |f.list|
  }

  predicate Leaf(e: Expr) { !e.Block? && !e.Loop? && !e.If? && !e.Try? }

  /** One callback; None if it is not its turn. */
  function Accept(ev: Event, fs: seq<Frame>): Option<seq<Frame>> {
    match ev
    case On(e) => if IsNext(fs, e) && Leaf(e) then Some(Begun1(fs)) else None
    case BeginBlock(e) => if e.Block? then Enter(fs, e, e.body) else None
    case BeginLoop(e) => if e.Loop? then Enter(fs, e, e.body) else None
    case BeginIf(e) => if e.If? then Enter(fs, e, e.thn) else None
    case BeginTry(e) => if e.Try? then Enter(fs, e, e.body) else None
    case EndBlock(e) => if e.Block? && Done(fs, e, 0) then Some(fs[..|fs| - 1]) else None
    case EndLoop(e) => if e.Loop? && Done(fs, e, 0) then Some(fs[..|fs| - 1]) else None
    case AfterIfTrue(e) => if e.If? && Done(fs, e, 0) then Some(Turned(fs, e, e.els, 1)) else None
    case EndIf(e) => if e.If? && Done(fs, e, 1) then Some(fs[..|fs| - 1]) else None
    case OnCatch(e, i) =>
      if e.Try? && e.kind == CatchTry && i < |e.catches| && Done(fs, e, i)
      then Some(Turned(fs, e, e.catches[i].exprs, i + 1)) else None
    case OnDelegate(e) =>
      if e.Try? && e.kind == DelegateTry && Done(fs, e, 0) then Some(fs[..|fs| - 1]) else None
    case EndTry(e) =>
      if e.Try? && e.kind != DelegateTry && Done(fs, e, if e.kind == CatchTry then |e.catches| else 0)
      then Some(fs[..|fs| - 1]) else None
  }

  function Enter(fs: seq<Frame>, e: Expr, list: seq<Expr>): Option<seq<Frame>> {
    if IsNext(fs, e) then Some(Begun1(fs) + [Frame(Some(e), list, 0, 0)]) else None
  }

  function Turned(fs: seq<Frame>, e: Expr, list: seq<Expr>, part: nat): seq<Frame>
    requires fs != []
  {
    fs[..|fs| - 1] + [Frame(Some(e), list, 0, part)]
  }

  function AcceptAll(evs: seq<Event>, fs: seq<Frame>): Option<seq<Frame>>
    decreases |evs|
  {
    if evs == [] then Some(fs)
    else
      var fs1 :- Accept(evs[0], fs);
      AcceptAll(evs[1..], fs1)
  }

  lemma {:induction false} AcceptJoin(a: seq<Event>, b: seq<Event>, fs: seq<Frame>)
    ensures AcceptAll(a + b, fs) == var fs1 := AcceptAll(a, fs); if fs1.None? then None else AcceptAll(b, fs1.value)
    decreases |a|
  {
    if a == [] {
      assert a + b == b;
    } else {
      hide Accept;
      assert (a + b)[1..] == a[1..] + b;
      var fs1 := Accept(a[0], fs);
      if fs1.Some? { AcceptJoin(a[1..], b, fs1.value); }
    }
  }

  lemma AcceptOne(ev: Event, fs: seq<Frame>)
    ensures AcceptAll([ev], fs) == Accept(ev, fs)
  {
    hide Accept;
    assert [ev][1..] == [];
  }

  // ----- the traversal is accepted -----

  /** The automaton inside a list, with `n` of its expressions begun. */
  function In(fs: seq<Frame>, owner: Option<Expr>, list: seq<Expr>, n: nat, part: nat): seq<Frame> {
    fs + [Frame(owner, list, n, part)]
  }

  lemma {:induction false} ListAccepted(fs: seq<Frame>, owner: Option<Expr>, list: seq<Expr>, n: nat, part: nat)
    requires n <= |list|
    ensures AcceptAll(TraceList(list[n..]), In(fs, owner, list, n, part)) == Some(In(fs, owner, list, |list|, part))
    decreases list[n..], 0
  {
    if n < |list| {
      hide AcceptAll, Trace;
      var e := list[n];
      assert list[n..][0] == e && list[n..][1..] == list[n + 1..];
      ExprAccepted(In(fs, owner, list, n, part), e);
      ListAccepted(fs, owner, list, n + 1, part);
      AcceptJoin(Trace(e), TraceList(list[n + 1..]), In(fs, owner, list, n, part));
    }
  }

  /** A first list, between the callbacks around it. */
  lemma Bracketed(fs: seq<Frame>, first: Event, inside: seq<Event>, last: Event, fs1: seq<Frame>, fs2: seq<Frame>)
    requires Accept(first, fs) == Some(fs1) && AcceptAll(inside, fs1) == Some(fs2)
    ensures AcceptAll([first] + inside + [last], fs) == Accept(last, fs2)
  {
    hide Accept, AcceptAll;
    AcceptOne(first, fs);
    AcceptOne(last, fs2);
    AcceptJoin([first], inside, fs);
    AcceptJoin([first] + inside, [last], fs);
  }

  lemma WholeList(list: seq<Expr>)
    ensures list[0..] == list
  {}

  lemma {:induction false} ExprAccepted(fs: seq<Frame>, e: Expr)
    requires IsNext(fs, e)
    ensures AcceptAll(Trace(e), fs) == Some(Begun1(fs))
    decreases e, 1
  {
    hide AcceptAll, TraceList, TraceCatches, Begun1;
    var below := Begun1(fs);
    hide IsNext;
    match e
    case Block(_, _, b) =>
      WholeList(b);
      ListAccepted(below, Some(e), b, 0, 0);
      Bracketed(fs, BeginBlock(e), TraceList(b), EndBlock(e), In(below, Some(e), b, 0, 0),
          In(below, Some(e), b, |b|, 0));
      Left(below, e, b, 0);
    case Loop(_, _, b) =>
      WholeList(b);
      ListAccepted(below, Some(e), b, 0, 0);
      Bracketed(fs, BeginLoop(e), TraceList(b), EndLoop(e), In(below, Some(e), b, 0, 0),
          In(below, Some(e), b, |b|, 0));
      Left(below, e, b, 0);
    case If(_, _, _, _) => IfAccepted(fs, e);
    case Try(_, _, _, _, _, _) => TryAccepted(fs, e);
    case _ => AcceptOne(On(e), fs);
  }

  lemma {:induction false} IfAccepted(fs: seq<Frame>, e: Expr)
    requires IsNext(fs, e) && e.If?
    ensures AcceptAll(Trace(e), fs) == Some(Begun1(fs))
    decreases e, 0
  {
    hide AcceptAll, TraceList, Begun1, Done;
    var (below, a, b) := (Begun1(fs), e.thn, e.els);
    var (s0, s1, s2, s3) := (In(below, Some(e), a, 0, 0), In(below, Some(e), a, |a|, 0), In(below, Some(e), b, 0, 1),
        In(below, Some(e), b, |b|, 1));
    var first := [BeginIf(e)] + TraceList(a) + [AfterIfTrue(e)];
    WholeList(a);
    WholeList(b);
    ListAccepted(below, Some(e), a, 0, 0);
    ListAccepted(below, Some(e), b, 0, 1);
    Left(below, e, a, 0);
    Left(below, e, b, 1);
    Bracketed(fs, BeginIf(e), TraceList(a), AfterIfTrue(e), s0, s1);
    hide Accept;
    AcceptJoin(first, TraceList(b), fs);
    AcceptJoin(first + TraceList(b), [EndIf(e)], fs);
    AcceptOne(EndIf(e), s3);
  }

  lemma {:induction false} TryAccepted(fs: seq<Frame>, e: Expr)
    requires IsNext(fs, e) && e.Try?
    ensures AcceptAll(Trace(e), fs) == Some(Begun1(fs))
    decreases e, 0
  {
    hide AcceptAll, TraceList, TraceCatches, Begun1, Done;
    var (below, b, cs) := (Begun1(fs), e.body, e.catches);
    WholeList(b);
    ListAccepted(below, Some(e), b, 0, 0);
    Left(below, e, b, 0);
    if e.kind == CatchTry {
      ClausesAccepted(below, e, b, 0, 0);
      WholeClauses(cs);
      AcceptOne(BeginTry(e), fs);
      AcceptJoin([BeginTry(e)], TraceList(b), fs);
      var tail := TraceCatches(e, cs, 0) + [EndTry(e)];
      AcceptJoin([BeginTry(e)] + TraceList(b), tail, fs);
      assert Trace(e) == [BeginTry(e)] + TraceList(b) + tail;
    } else {
      Bracketed(fs, BeginTry(e), TraceList(b), if e.kind == PlainTry then EndTry(e) else OnDelegate(e),
          In(below, Some(e), b, 0, 0), In(below, Some(e), b, |b|, 0));
    }
  }

  lemma WholeClauses(cs: seq<Catch>)
    ensures cs[0..] == cs
  {}

  lemma Left(fs: seq<Frame>, e: Expr, list: seq<Expr>, part: nat)
    ensures var s := In(fs, Some(e), list, |list|, part); Done(s, e, part) && s[..|s| - 1] == fs
    ensures forall list1: seq<Expr>, part1: nat ::
        Turned(In(fs, Some(e), list, |list|, part), e, list1, part1) == In(fs, Some(e), list1, 0, part1)
  {}

  /** From the end of a try's list on: its clauses from the `i`th on, and its end. */
  lemma {:induction false} ClausesAccepted(fs: seq<Frame>, e: Expr, list: seq<Expr>, i: nat, part: nat)
    requires e.Try? && e.kind == CatchTry && i <= |e.catches| && part == i
    ensures AcceptAll(TraceCatches(e, e.catches[i..], i) + [EndTry(e)], In(fs, Some(e), list, |list|, part)) == Some(fs)
    decreases e, 0, |e.catches| - i
  {
    var cs := e.catches;
    var s := In(fs, Some(e), list, |list|, part);
    Left(fs, e, list, part);
    if i == |cs| {
      assert TraceCatches(e, cs[i..], i) + [EndTry(e)] == [EndTry(e)];
      AcceptOne(EndTry(e), s);
    } else {
      hide AcceptAll, TraceList;
      var es := cs[i].exprs;
      var rest := TraceCatches(e, cs[i + 1..], i + 1) + [EndTry(e)];
      assert cs[i..][0] == cs[i] && cs[i..][1..] == cs[i + 1..];
      WholeList(es);
      ListAccepted(fs, Some(e), es, 0, i + 1);
      ClausesAccepted(fs, e, es, i + 1, i + 1);
      AcceptOne(OnCatch(e, i), s);
      AcceptJoin([OnCatch(e, i)], TraceList(es), s);
      AcceptJoin([OnCatch(e, i)] + TraceList(es), rest, s);
      assert TraceCatches(e, cs[i..], i) + [EndTry(e)] == [OnCatch(e, i)] + TraceList(es) + rest;
    }
  }

  // ----- and nothing else is -----

  /** It is the turn of at most one callback. */
  lemma OnlyOne(a: Event, b: Event, fs: seq<Frame>)
    requires Accept(a, fs).Some? && Accept(b, fs).Some?
    ensures a == b
  {}

  lemma {:induction false} OnlyTrace(a: seq<Event>, b: seq<Event>, fs: seq<Frame>, last: seq<Frame>)
    requires AcceptAll(a, fs) == Some(last) == AcceptAll(b, fs) && forall ev :: Accept(ev, last).None?
    ensures a == b
    decreases |a|
  {
    hide Accept;
    if a != [] && b != [] {
      OnlyOne(a[0], b[0], fs);
      OnlyTrace(a[1..], b[1..], Accept(a[0], fs).value, last);
    }
  }

  /** The callbacks for a list are the one sequence that the automaton accepts from its first
      expression to its end. */
  lemma TraceExactly(es: seq<Expr>, evs: seq<Event>)
    ensures AcceptAll(evs, In([], None, es, 0, 0)) == Some(In([], None, es, |es|, 0)) <==> evs == TraceList(es)
  {
    hide AcceptAll, TraceList;
    WholeList(es);
    ListAccepted([], None, es, 0, 0);
    if AcceptAll(evs, In([], None, es, 0, 0)) == Some(In([], None, es, |es|, 0)) {
      forall ev ensures Accept(ev, In([], None, es, |es|, 0)).None? { NothingMore(ev, es); }
      OnlyTrace(evs, TraceList(es), In([], None, es, 0, 0), In([], None, es, |es|, 0));
    }
  }

  lemma NothingMore(ev: Event, es: seq<Expr>)
    ensures Accept(ev, In([], None, es, |es|, 0)).None?
  {}

  // ----- the clauses of a try -----

  /** Where the callback for the `i`th clause stands; for |catches|, where the end stands. */
  function ClauseAt(body: seq<Expr>, cs: seq<Catch>, i: nat): nat
    requires i <= |cs|
  {
    if i == 0 then 1 + |TraceList(body)| else ClauseAt(body, cs, i - 1) + 1 + |TraceList(cs[i - 1].exprs)|
  }

  /** The first `i` clauses. */
  function Clauses(e: Expr, i: nat): seq<Event>
    requires e.Try? && i <= |e.catches|
  {
    if i == 0 then [] else Clauses(e, i - 1) + [OnCatch(e, i - 1)] + TraceList(e.catches[i - 1].exprs)
  }

  lemma {:induction false} ClausesFirst(e: Expr, i: nat)
    requires e.Try? && i <= |e.catches|
    ensures TraceCatches(e, e.catches, 0) == Clauses(e, i) + TraceCatches(e, e.catches[i..], i)
    ensures 1 + |TraceList(e.body)| + |Clauses(e, i)| == ClauseAt(e.body, e.catches, i)
  {
    hide TraceList;
    if i == 0 {
      assert e.catches[0..] == e.catches;
    } else {
      ClausesFirst(e, i - 1);
      var c := e.catches[i - 1];
      assert e.catches[i - 1..][0] == c && e.catches[i - 1..][1..] == e.catches[i..];
      var rest := TraceCatches(e, e.catches[i..], i);
      assert Clauses(e, i - 1) + ([OnCatch(e, i - 1)] + TraceList(c.exprs) + rest)
          == Clauses(e, i - 1) + [OnCatch(e, i - 1)] + TraceList(c.exprs) + rest;
    }
  }

  /** In the traversal of a try with clauses each clause is called back in its place, and up to the
      next one, or the end, comes exactly the traversal of its expressions. */
  lemma ClausesInPlace(e: Expr, i: nat)
    requires e.Try? && e.kind == CatchTry && i < |e.catches|
    ensures var at := ClauseAt(e.body, e.catches, i);
            var next := ClauseAt(e.body, e.catches, i + 1);
            && at < next < |Trace(e)| && Trace(e)[at] == OnCatch(e, i)
            && Trace(e)[at + 1..next] == TraceList(e.catches[i].exprs)
            && (i + 1 == |e.catches| ==> Trace(e)[next] == EndTry(e) && |Trace(e)| == next + 1)
  {
    hide TraceList;
    var cs := e.catches;
    ClausesFirst(e, i);
    ClausesFirst(e, i + 1);
    var head := [BeginTry(e)] + TraceList(e.body) + Clauses(e, i);
    var mine := TraceList(cs[i].exprs);
    var rest := TraceCatches(e, cs[i + 1..], i + 1) + [EndTry(e)];
    assert Trace(e) == head + [OnCatch(e, i)] + mine + rest;
    assert (head + [OnCatch(e, i)] + mine + rest)[|head| + 1..|head| + 1 + |mine|] == mine;
    if i + 1 == |cs| { assert rest == [EndTry(e)]; }
  }

  /** Events about expressions that are not `e`. */
  predicate NotOf(e: Expr, evs: seq<Event>) { forall i | 0 <= i < |evs| :: Of(evs[i]) != e }

  function Of(ev: Event): Expr { ev.e }

  /** What is inside an expression weighs less. */
  lemma {:induction false} ListLighter(es: seq<Expr>, i: nat)
    requires i < |TraceList(es)|
    ensures Weight(Of(TraceList(es)[i])) <= WeightList(es)
    decreases es, 0
  {
    hide Trace, Weight;
    var n := |Trace(es[0])|;
    if i < n { ExprLighter(es[0], i); } else { ListLighter(es[1..], i - n); }
  }

  lemma {:induction false} ExprLighter(e: Expr, i: nat)
    requires i < |Trace(e)|
    ensures Weight(Of(Trace(e)[i])) <= Weight(e)
    decreases e, 1
  {
    hide TraceList, TraceCatches, WeightList, WeightCatches;
    match e
    case Block(_, _, b) => if 1 <= i <= |TraceList(b)| { ListLighter(b, i - 1); }
    case Loop(_, _, b) => if 1 <= i <= |TraceList(b)| { ListLighter(b, i - 1); }
    case If(_, _, a, b) =>
      var (n, k) := (|TraceList(a)|, |TraceList(b)|);
      if 1 <= i <= n { ListLighter(a, i - 1); } else if n + 2 <= i < n + 2 + k { ListLighter(b, i - n - 2); }
    case Try(_, _, b, kind, cs, _) =>
      var n := |TraceList(b)|;
      if 1 <= i <= n { ListLighter(b, i - 1); }
      else if kind == CatchTry && n < i <= n + |TraceCatches(e, cs, 0)| { CatchesLighter(e, cs, 0, i - n - 1); }
    case _ =>
  }

  lemma {:induction false} CatchesLighter(e: Expr, cs: seq<Catch>, first: nat, i: nat)
    requires i < |TraceCatches(e, cs, first)|
    ensures var ev := TraceCatches(e, cs, first)[i]; Of(ev) == e || Weight(Of(ev)) <= WeightCatches(cs)
    decreases cs, 0
  {
    hide TraceList, WeightList;
    var n := |TraceList(cs[0].exprs)|;
    if 1 <= i <= n { ListLighter(cs[0].exprs, i - 1); }
    else if i > n { CatchesLighter(e, cs[1..], first + 1, i - n - 1); }
  }

  /** Nothing inside the lists of a try is about the try itself: its own callbacks are those of
      ClausesInPlace, its beginning and its end. */
  lemma OwnClausesOnly(e: Expr, i: nat)
    requires e.Try? && i < |e.catches|
    ensures NotOf(e, TraceList(e.catches[i].exprs)) && NotOf(e, TraceList(e.body))
  {
    hide TraceList, WeightList;
    CatchesHeavier(e.catches, i);
    forall j | 0 <= j < |TraceList(e.catches[i].exprs)| ensures Of(TraceList(e.catches[i].exprs)[j]) != e {
      ListLighter(e.catches[i].exprs, j);
    }
    forall j | 0 <= j < |TraceList(e.body)| ensures Of(TraceList(e.body)[j]) != e { ListLighter(e.body, j); }
  }

  lemma {:induction false} CatchesHeavier(cs: seq<Catch>, i: nat)
    requires i < |cs|
    ensures WeightList(cs[i].exprs) <= WeightCatches(cs)
    decreases i
  {
    hide WeightList;
    if i > 0 { CatchesHeavier(cs[1..], i - 1); }
  }
}

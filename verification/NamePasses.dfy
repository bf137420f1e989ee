/** The naming passes as delegates of the visitor: what the callbacks do one after the other, in
    the order in which the visitor makes them, is what the recursive passes compute. */
module NamePasses {
  import opened Ir
  import opened ExprVisitor
  import opened Naming

  // ----- generating names -----

  /** A callback of the generator: the label it gives, and the next number. */
  function GenStep(ev: Event, k: nat): (seq<string>, nat) {
    match ev
    case BeginBlock(e) => ([MaybeName('B', k, LabelOf(e))], k + 1)
    case BeginLoop(e) => ([MaybeName('L', k, LabelOf(e))], k + 1)
    case BeginIf(e) => ([MaybeName('I', k, LabelOf(e))], k + 1)
    case BeginTry(e) => ([MaybeName('T', k, LabelOf(e))], k + 1)
    case _ => ([], k)
  }

  function LabelOf(e: Expr): string { if e.Block? || e.Loop? || e.If? || e.Try? then e.name else "" }

  function GenRun(evs: seq<Event>, k: nat): (seq<string>, nat) {
    if evs == [] then ([], k)
    else
      var (out, k1) := GenStep(evs[0], k);
      var (rest, k2) := GenRun(evs[1..], k1);
      (out + rest, k2)
  }

  /** The labels of a tree in the order of the visit. */
  function LabelsIn(es: seq<Expr>): seq<string>
    decreases es, 0
  {
    if es == [] then [] else LabelsInExpr(es[0]) + LabelsIn(es[1..])
  }

  function LabelsInExpr(e: Expr): seq<string>
    decreases e, 1
  {
    match e
    case Block(l, _, b) => [l] + LabelsIn(b)
    case Loop(l, _, b) => [l] + LabelsIn(b)
    case If(l, _, a, b) => [l] + LabelsIn(a) + LabelsIn(b)
    case Try(l, _, b, kind, cs, _) => [l] + LabelsIn(b) + if kind == CatchTry then LabelsInCatches(cs) else []
    case _ => []
  }

  function LabelsInCatches(cs: seq<Catch>): seq<string>
    decreases cs, 0
  {
    if cs == [] then [] else LabelsIn(cs[0].exprs) + LabelsInCatches(cs[1..])
  }

  lemma {:induction false} GenRunJoin(a: seq<Event>, b: seq<Event>, k: nat)
    ensures var (out, k1) := GenRun(a, k);
            var (more, k2) := GenRun(b, k1);
            GenRun(a + b, k) == (out + more, k2)
  {
    if a == [] {
      assert a + b == b && [] + GenRun(b, k).0 == GenRun(b, k).0;
    } else {
      hide GenStep;
      assert (a + b)[1..] == a[1..] + b;
      var (out, k1) := GenStep(a[0], k);
      GenRunJoin(a[1..], b, k1);
      var (mid, k2) := GenRun(a[1..], k1);
      assert out + (mid + GenRun(b, k2).0) == out + mid + GenRun(b, k2).0;
    }
  }

  lemma GenRunOne(ev: Event, k: nat)
    ensures GenRun([ev], k) == GenStep(ev, k)
  {
    hide GenStep;
    assert GenRun([ev][1..], GenStep(ev, k).1) == ([], GenStep(ev, k).1);
    assert GenStep(ev, k).0 + [] == GenStep(ev, k).0;
  }

  /** The labels that the callbacks give are those of the named tree, in order. */
  lemma {:induction false} GenIsDelegate(es: seq<Expr>, k: nat)
    ensures var (named, k1) := GenList(es, k); GenRun(TraceList(es), k) == (LabelsIn(named), k1)
    decreases es, 0
  {
    hide Trace, GenExpr, LabelsInExpr, GenRun;
    if es == [] {
      GenRunNone(k);
    } else {
      var (e1, k1) := GenExpr(es[0], k);
      GenIsDelegateExpr(es[0], k);
      GenIsDelegate(es[1..], k1);
      GenRunJoin(Trace(es[0]), TraceList(es[1..]), k);
      assert GenList(es, k).0[1..] == GenList(es[1..], k1).0;
    }
  }

  lemma GenRunNone(k: nat)
    ensures GenRun([], k) == ([], k)
  {}

  /** A construct: a label, then what comes inside, then a callback that gives none. */
  lemma GenRunNest(first: Event, inside: seq<Event>, last: Event, k: nat)
    requires GenStep(last, GenRun(inside, k + 1).1) == ([], GenRun(inside, k + 1).1)
    requires GenStep(first, k).1 == k + 1
    ensures GenRun([first] + inside + [last], k)
        == (GenStep(first, k).0 + GenRun(inside, k + 1).0, GenRun(inside, k + 1).1)
  {
    hide GenStep, GenRun;
    var k1 := GenRun(inside, k + 1).1;
    GenRunOne(first, k);
    GenRunOne(last, k1);
    GenRunJoin([first], inside, k);
    GenRunJoin([first] + inside, [last], k);
    assert GenStep(first, k).0 + GenRun(inside, k + 1).0 + [] == GenStep(first, k).0 + GenRun(inside, k + 1).0;
  }

  /** What comes inside a construct with two parts. */
  lemma GenRunParts(a: seq<Event>, mid: Event, b: seq<Event>, k: nat)
    requires GenStep(mid, GenRun(a, k).1) == ([], GenRun(a, k).1)
    ensures var (out, k1) := GenRun(a, k);
            var (more, k2) := GenRun(b, k1);
            GenRun(a + [mid] + b, k) == (out + more, k2)
  {
    hide GenStep, GenRun;
    GenRunOne(mid, GenRun(a, k).1);
    GenRunJoin(a, [mid], k);
    GenRunJoin(a + [mid], b, k);
    assert GenRun(a, k).0 + [] == GenRun(a, k).0;
  }

  lemma {:induction false} GenIsDelegateExpr(e: Expr, k: nat)
    ensures var (e1, k1) := GenExpr(e, k); GenRun(Trace(e), k) == (LabelsInExpr(e1), k1)
    decreases e, 1
  {
    hide GenList, GenCatches, GenRun, TraceList, TraceCatches, LabelsIn, LabelsInCatches, MaybeName;
    match e
    case Block(_, _, b) =>
      GenIsDelegate(b, k + 1);
      GenRunNest(BeginBlock(e), TraceList(b), EndBlock(e), k);
    case Loop(_, _, b) =>
      GenIsDelegate(b, k + 1);
      GenRunNest(BeginLoop(e), TraceList(b), EndLoop(e), k);
    case If(l, _, a, b) =>
      var (a1, k1) := GenList(a, k + 1);
      var inside := TraceList(a) + [AfterIfTrue(e)] + TraceList(b);
      GenIsDelegate(a, k + 1);
      GenIsDelegate(b, k1);
      GenRunParts(TraceList(a), AfterIfTrue(e), TraceList(b), k + 1);
      GenRunNest(BeginIf(e), inside, EndIf(e), k);
      assert Trace(e) == [BeginIf(e)] + inside + [EndIf(e)];
      assert [MaybeName('I', k, l)] + LabelsIn(a1) + LabelsIn(GenList(b, k1).0)
          == [MaybeName('I', k, l)] + (LabelsIn(a1) + LabelsIn(GenList(b, k1).0));
    case Try(l, _, b, kind, cs, _) =>
      var (b1, k1) := GenList(b, k + 1);
      GenIsDelegate(b, k + 1);
      if kind == CatchTry {
        var cs1 := GenCatches(cs, k1).0;
        var inside := TraceList(b) + TraceCatches(e, cs, 0);
        GenIsDelegateCatches(e, cs, 0, k1);
        GenRunJoin(TraceList(b), TraceCatches(e, cs, 0), k + 1);
        GenRunNest(BeginTry(e), inside, EndTry(e), k);
        assert Trace(e) == [BeginTry(e)] + inside + [EndTry(e)];
        assert [MaybeName('T', k, l)] + LabelsIn(b1) + LabelsInCatches(cs1)
            == [MaybeName('T', k, l)] + (LabelsIn(b1) + LabelsInCatches(cs1));
      } else {
        GenRunNest(BeginTry(e), TraceList(b), if kind == PlainTry then EndTry(e) else OnDelegate(e), k);
        assert [MaybeName('T', k, l)] + LabelsIn(b1) + [] == [MaybeName('T', k, l)] + LabelsIn(b1);
      }
    case _ => GenRunOne(On(e), k);
  }

  lemma {:induction false} GenIsDelegateCatches(e: Expr, cs: seq<Catch>, first: nat, k: nat)
    ensures var (cs1, k1) := GenCatches(cs, k); GenRun(TraceCatches(e, cs, first), k) == (LabelsInCatches(cs1), k1)
    decreases cs, 0
  {
    hide GenList, GenRun, TraceList, LabelsIn;
    if cs == [] {
      GenRunNone(k);
    } else {
      var (es, k1) := GenList(cs[0].exprs, k);
      var t := TraceList(cs[0].exprs);
      var rest := TraceCatches(e, cs[1..], first + 1);
      GenIsDelegate(cs[0].exprs, k);
      GenIsDelegateCatches(e, cs[1..], first + 1, k1);
      GenRunOne(OnCatch(e, first), k);
      GenRunJoin([OnCatch(e, first)], t, k);
      GenRunJoin([OnCatch(e, first)] + t, rest, k);
      assert [] + LabelsIn(es) == LabelsIn(es);
      assert GenCatches(cs, k).0[1..] == GenCatches(cs[1..], k1).0;
    }
  }

  // ----- which labels change -----

  /** A letter for each label of a tree, in the order of the visit. */
  function LettersIn(es: seq<Expr>): string
    decreases es, 0
  {
    if es == [] then "" else LettersInExpr(es[0]) + LettersIn(es[1..])
  }

  function LettersInExpr(e: Expr): string
    decreases e, 1
  {
    match e
    case Block(_, _, b) => "B" + LettersIn(b)
    case Loop(_, _, b) => "L" + LettersIn(b)
    case If(_, _, a, b) => "I" + LettersIn(a) + LettersIn(b)
    case Try(_, _, b, kind, cs, _) => "T" + LettersIn(b) + if kind == CatchTry then LettersInCatches(cs) else ""
    case _ => ""
  }

  function LettersInCatches(cs: seq<Catch>): string
    decreases cs, 0
  {
    if cs == [] then "" else LettersIn(cs[0].exprs) + LettersInCatches(cs[1..])
  }

  /** The labels of a visit before and after: one that has a name keeps it, the others get names
      with their letter and the numbers from `k` on, counted over all of them. */
  predicate Given(letters: string, before: seq<string>, after: seq<string>, k: nat) {
    && |after| == |before| == |letters|
    && forall i | 0 <= i < |before| ::
         after[i] == if before[i] != "" then before[i] else "$" + [letters[i]] + Decimal(k + i)
  }

  lemma GivenJoin(ls: string, a: seq<string>, a1: seq<string>, ms: string, b: seq<string>, b1: seq<string>, k: nat)
    requires Given(ls, a, a1, k) && Given(ms, b, b1, k + |a|)
    ensures Given(ls + ms, a + b, a1 + b1, k)
  {
    hide Decimal;
  }

  lemma GivenOne(prefix: char, l: string, k: nat)
    ensures Given([prefix], [l], [MaybeName(prefix, k, l)], k)
  {
    hide Decimal;
  }

  lemma GivenNone(k: nat)
    ensures Given("", [], [], k)
  {}

  /** Labels that have names are kept, and the others get their letter and a number of their own, in
      visiting order. */
  lemma {:induction false} LabelsGiven(es: seq<Expr>, k: nat)
    ensures Given(LettersIn(es), LabelsIn(es), LabelsIn(GenList(es, k).0), k)
    ensures GenList(es, k).1 == k + |LabelsIn(es)|
    decreases es, 0
  {
    hide GenExpr, LabelsInExpr, LettersInExpr, Given;
    if es == [] {
      GivenNone(k);
    } else {
      var (e1, k1) := GenExpr(es[0], k);
      LabelsGivenExpr(es[0], k);
      LabelsGiven(es[1..], k1);
      GivenJoin(LettersInExpr(es[0]), LabelsInExpr(es[0]), LabelsInExpr(e1), LettersIn(es[1..]), LabelsIn(es[1..]),
          LabelsIn(GenList(es[1..], k1).0), k);
      assert GenList(es, k).0[1..] == GenList(es[1..], k1).0;
    }
  }

  lemma {:induction false} LabelsGivenExpr(e: Expr, k: nat)
    ensures Given(LettersInExpr(e), LabelsInExpr(e), LabelsInExpr(GenExpr(e, k).0), k)
    ensures GenExpr(e, k).1 == k + |LabelsInExpr(e)|
    decreases e, 1
  {
    hide GenList, GenCatches, LabelsIn, LettersIn, LabelsInCatches, LettersInCatches, Given, MaybeName;
    match e
    case Block(l, _, b) =>
      LabelsGiven(b, k + 1);
      GivenOne('B', l, k);
      GivenJoin("B", [l], [MaybeName('B', k, l)], LettersIn(b), LabelsIn(b), LabelsIn(GenList(b, k + 1).0), k);
    case Loop(l, _, b) =>
      LabelsGiven(b, k + 1);
      GivenOne('L', l, k);
      GivenJoin("L", [l], [MaybeName('L', k, l)], LettersIn(b), LabelsIn(b), LabelsIn(GenList(b, k + 1).0), k);
    case If(l, _, a, b) =>
      var (a1, k1) := GenList(a, k + 1);
      LabelsGiven(a, k + 1);
      LabelsGiven(b, k1);
      GivenOne('I', l, k);
      GivenJoin("I", [l], [MaybeName('I', k, l)], LettersIn(a), LabelsIn(a), LabelsIn(a1), k);
      GivenJoin("I" + LettersIn(a), [l] + LabelsIn(a), [MaybeName('I', k, l)] + LabelsIn(a1),
          LettersIn(b), LabelsIn(b), LabelsIn(GenList(b, k1).0), k);
    case Try(l, _, b, kind, cs, _) =>
      var (b1, k1) := GenList(b, k + 1);
      LabelsGiven(b, k + 1);
      GivenOne('T', l, k);
      GivenJoin("T", [l], [MaybeName('T', k, l)], LettersIn(b), LabelsIn(b), LabelsIn(b1), k);
      var (letters, head, head1) := ("T" + LettersIn(b), [l] + LabelsIn(b), [MaybeName('T', k, l)] + LabelsIn(b1));
      if kind == CatchTry {
        LabelsGivenCatches(cs, k1);
        GivenJoin(letters, head, head1, LettersInCatches(cs), LabelsInCatches(cs),
            LabelsInCatches(GenCatches(cs, k1).0), k);
      } else {
        assert letters + "" == letters && head + [] == head && head1 + [] == head1;
      }
    case _ => GivenNone(k);
  }

  lemma {:induction false} LabelsGivenCatches(cs: seq<Catch>, k: nat)
    ensures Given(LettersInCatches(cs), LabelsInCatches(cs), LabelsInCatches(GenCatches(cs, k).0), k)
    ensures GenCatches(cs, k).1 == k + |LabelsInCatches(cs)|
    decreases cs, 0
  {
    hide GenList, LabelsIn, LettersIn, Given;
    if cs == [] {
      GivenNone(k);
    } else {
      var (es, k1) := GenList(cs[0].exprs, k);
      LabelsGiven(cs[0].exprs, k);
      LabelsGivenCatches(cs[1..], k1);
      GivenJoin(LettersIn(cs[0].exprs), LabelsIn(cs[0].exprs), LabelsIn(es), LettersInCatches(cs[1..]),
          LabelsInCatches(cs[1..]), LabelsInCatches(GenCatches(cs[1..], k1).0), k);
      assert GenCatches(cs, k).0[1..] == GenCatches(cs[1..], k1).0;
    }
  }

  // ----- applying names -----

  /** A callback of the applier: the variables it puts in place, and the open labels after it. */
  function ApplyStep(ev: Event, labels: seq<string>): (seq<Var>, seq<string>) {
    match ev
    case On(e) => (ApplyVars(labels, VarsOf(e)), labels)
    case BeginBlock(e) => ([], labels + [LabelOf(e)])
    case BeginLoop(e) => ([], labels + [LabelOf(e)])
    case BeginIf(e) => ([], labels + [LabelOf(e)])
    case BeginTry(e) => ([], labels + [LabelOf(e)])
    case EndBlock(_) => ([], Popped(labels))
    case EndLoop(_) => ([], Popped(labels))
    case EndIf(_) => ([], Popped(labels))
    case EndTry(_) => ([], Popped(labels))
    case OnDelegate(e) => (ApplyVars(Popped(labels), if e.Try? then [e.delegate] else []), Popped(labels))
    case AfterIfTrue(_) => ([], labels)
    case OnCatch(_, _) => ([], labels)
  }

  function Popped(labels: seq<string>): seq<string> { if labels == [] then [] else labels[..|labels| - 1] }

  function ApplyRun(evs: seq<Event>, labels: seq<string>): (seq<Var>, seq<string>)
    decreases |evs|
  {
    if evs == [] then ([], labels)
    else
      var (out, labels1) := ApplyStep(evs[0], labels);
      var (rest, labels2) := ApplyRun(evs[1..], labels1);
      (out + rest, labels2)
  }

  /** The label variables of an instruction. */
  function VarsOf(e: Expr): seq<Var> {
    match e
    case Br(v) => [v]
    case BrIf(v) => [v]
    case BrTable(vs, d) => vs + [d]
    case Rethrow(v) => [v]
    case _ => []
  }

  /** The label variables of a tree in the order of the visit. */
  function VarsIn(es: seq<Expr>): seq<Var>
    decreases es, 0
  {
    if es == [] then [] else VarsInExpr(es[0]) + VarsIn(es[1..])
  }

  function VarsInExpr(e: Expr): seq<Var>
    decreases e, 1
  {
    match e
    case Block(_, _, b) => VarsIn(b)
    case Loop(_, _, b) => VarsIn(b)
    case If(_, _, a, b) => VarsIn(a) + VarsIn(b)
    case Try(_, _, b, kind, cs, v) =>
      VarsIn(b) + (match kind case PlainTry => [] case CatchTry => VarsInCatches(cs) case DelegateTry => [v])
    case _ => VarsOf(e)
  }

  function VarsInCatches(cs: seq<Catch>): seq<Var>
    decreases cs, 0
  {
    if cs == [] then [] else VarsIn(cs[0].exprs) + VarsInCatches(cs[1..])
  }

  lemma {:induction false} ApplyRunJoin(a: seq<Event>, b: seq<Event>, labels: seq<string>)
    ensures var (out, labels1) := ApplyRun(a, labels);
            var (more, labels2) := ApplyRun(b, labels1);
            ApplyRun(a + b, labels) == (out + more, labels2)
    decreases |a|
  {
    if a == [] {
      assert a + b == b && [] + ApplyRun(b, labels).0 == ApplyRun(b, labels).0;
    } else {
      hide ApplyStep;
      assert (a + b)[1..] == a[1..] + b;
      var (out, labels1) := ApplyStep(a[0], labels);
      ApplyRunJoin(a[1..], b, labels1);
      var (mid, labels2) := ApplyRun(a[1..], labels1);
      assert out + (mid + ApplyRun(b, labels2).0) == out + mid + ApplyRun(b, labels2).0;
    }
  }

  lemma ApplyRunOne(ev: Event, labels: seq<string>)
    ensures ApplyRun([ev], labels) == ApplyStep(ev, labels)
  {
    hide ApplyStep;
    assert ApplyRun([ev][1..], ApplyStep(ev, labels).1) == ([], ApplyStep(ev, labels).1);
    assert ApplyStep(ev, labels).0 + [] == ApplyStep(ev, labels).0;
  }

  lemma ApplyRunNone(labels: seq<string>)
    ensures ApplyRun([], labels) == ([], labels)
  {}

  /** The variables that the callbacks put in place are those of the rewritten tree, in order, and
      the stack of open labels is as before. */
  lemma {:induction false} ApplyIsDelegate(labels: seq<string>, es: seq<Expr>)
    ensures ApplyRun(TraceList(es), labels) == (VarsIn(ApplyList(labels, es)), labels)
    decreases es, 0
  {
    hide Trace, ApplyExpr, VarsInExpr, ApplyRun;
    if es == [] {
      ApplyRunNone(labels);
    } else {
      ApplyIsDelegateExpr(labels, es[0]);
      ApplyIsDelegate(labels, es[1..]);
      ApplyRunJoin(Trace(es[0]), TraceList(es[1..]), labels);
      assert ApplyList(labels, es)[1..] == ApplyList(labels, es[1..]);
    }
  }

  /** A construct: its label is open for what comes inside. */
  lemma ApplyRunNest(first: Event, inside: seq<Event>, last: Event, l: string, labels: seq<string>)
    requires ApplyStep(first, labels) == ([], labels + [l]) && ApplyRun(inside, labels + [l]).1 == labels + [l]
    requires ApplyStep(last, labels + [l]).1 == labels
    ensures ApplyRun([first] + inside + [last], labels)
        == (ApplyRun(inside, labels + [l]).0 + ApplyStep(last, labels + [l]).0, labels)
    ensures ApplyStep(last, labels + [l]).0 == [] ==>
        ApplyRun([first] + inside + [last], labels) == (ApplyRun(inside, labels + [l]).0, labels)
  {
    hide ApplyStep, ApplyRun;
    ApplyRunOne(first, labels);
    ApplyRunOne(last, labels + [l]);
    ApplyRunJoin([first], inside, labels);
    ApplyRunJoin([first] + inside, [last], labels);
    var out := ApplyRun(inside, labels + [l]).0;
    assert [] + out == out && out + [] == out;
  }

  lemma ApplyRunParts(a: seq<Event>, mid: Event, b: seq<Event>, labels: seq<string>)
    requires ApplyRun(a, labels).1 == labels && ApplyStep(mid, labels) == ([], labels)
    ensures ApplyRun(a + [mid] + b, labels)
        == (ApplyRun(a, labels).0 + ApplyRun(b, labels).0, ApplyRun(b, labels).1)
  {
    hide ApplyStep, ApplyRun;
    ApplyRunOne(mid, labels);
    ApplyRunJoin(a, [mid], labels);
    ApplyRunJoin(a + [mid], b, labels);
    assert ApplyRun(a, labels).0 + [] == ApplyRun(a, labels).0;
  }

  lemma PoppedLast(labels: seq<string>, l: string)
    ensures Popped(labels + [l]) == labels
  {}

  lemma TableVars(labels: seq<string>, vs: seq<Var>, d: Var)
    ensures ApplyVars(labels, vs + [d]) == ApplyVars(labels, vs) + [ApplyVar(labels, d)]
  {}

  lemma OneVar(labels: seq<string>, v: Var)
    ensures ApplyVars(labels, [v]) == [ApplyVar(labels, v)]
  {}

  lemma {:induction false} ApplyIsDelegateExpr(labels: seq<string>, e: Expr)
    ensures ApplyRun(Trace(e), labels) == (VarsInExpr(ApplyExpr(labels, e)), labels)
    decreases e, 1
  {
    hide ApplyList, ApplyCatches, ApplyRun, TraceList, TraceCatches, VarsIn, VarsInCatches, ApplyVar, ApplyVars;
    PoppedLast(labels, LabelOf(e));
    var (inner, none: seq<Var>) := (labels + [LabelOf(e)], []);
    match e
    case Block(_, _, b) =>
      ApplyIsDelegate(inner, b);
      ApplyRunNest(BeginBlock(e), TraceList(b), EndBlock(e), e.name, labels);
    case Loop(_, _, b) =>
      ApplyIsDelegate(inner, b);
      ApplyRunNest(BeginLoop(e), TraceList(b), EndLoop(e), e.name, labels);
    case If(_, _, a, b) =>
      var inside := TraceList(a) + [AfterIfTrue(e)] + TraceList(b);
      ApplyIsDelegate(inner, a);
      ApplyIsDelegate(inner, b);
      ApplyRunParts(TraceList(a), AfterIfTrue(e), TraceList(b), inner);
      ApplyRunNest(BeginIf(e), inside, EndIf(e), e.name, labels);
      assert Trace(e) == [BeginIf(e)] + inside + [EndIf(e)];
    case Try(_, _, _, _, _, _) => ApplyIsDelegateTry(labels, e);
    case Br(v) => ApplyRunOne(On(e), labels); OneVar(labels, v);
    case BrIf(v) => ApplyRunOne(On(e), labels); OneVar(labels, v);
    case Rethrow(v) => ApplyRunOne(On(e), labels); OneVar(labels, v);
    case BrTable(vs, d) => ApplyRunOne(On(e), labels); TableVars(labels, vs, d);
    case _ => ApplyRunOne(On(e), labels); assert ApplyVars(labels, none) == none by { NoVars(labels); }
  }

  lemma NoVars(labels: seq<string>)
    ensures ApplyVars(labels, []) == []
  {}

  /** A delegate's variable is looked up when the try's own label is gone. */
  lemma {:induction false} ApplyIsDelegateTry(labels: seq<string>, e: Expr)
    requires e.Try?
    ensures ApplyRun(Trace(e), labels) == (VarsInExpr(ApplyExpr(labels, e)), labels)
    decreases e, 0
  {
    hide ApplyList, ApplyCatches, ApplyRun, TraceList, TraceCatches, VarsIn, VarsInCatches, ApplyVar, ApplyVars;
    var (inner, tb) := (labels + [e.name], TraceList(e.body));
    PoppedLast(labels, e.name);
    ApplyIsDelegate(inner, e.body);
    match e.kind
    case PlainTry => ApplyRunNest(BeginTry(e), tb, EndTry(e), e.name, labels);
    case CatchTry =>
      var inside := tb + TraceCatches(e, e.catches, 0);
      ApplyIsDelegateCatches(inner, e, e.catches, 0);
      ApplyRunJoin(tb, TraceCatches(e, e.catches, 0), inner);
      ApplyRunNest(BeginTry(e), inside, EndTry(e), e.name, labels);
      assert Trace(e) == [BeginTry(e)] + inside + [EndTry(e)];
    case DelegateTry =>
      OneVar(labels, e.delegate);
      ApplyRunNest(BeginTry(e), tb, OnDelegate(e), e.name, labels);
  }

  lemma {:induction false} ApplyIsDelegateCatches(labels: seq<string>, e: Expr, cs: seq<Catch>, first: nat)
    ensures ApplyRun(TraceCatches(e, cs, first), labels) == (VarsInCatches(ApplyCatches(labels, cs)), labels)
    decreases cs, 0
  {
    hide ApplyList, ApplyRun, TraceList, VarsIn;
    if cs == [] {
      ApplyRunNone(labels);
    } else {
      var t := TraceList(cs[0].exprs);
      var rest := TraceCatches(e, cs[1..], first + 1);
      ApplyIsDelegate(labels, cs[0].exprs);
      ApplyIsDelegateCatches(labels, e, cs[1..], first + 1);
      ApplyRunOne(OnCatch(e, first), labels);
      ApplyRunJoin([OnCatch(e, first)], t, labels);
      ApplyRunJoin([OnCatch(e, first)] + t, rest, labels);
      var vs := VarsIn(ApplyList(labels, cs[0].exprs));
      assert [] + vs == vs;
      assert ApplyCatches(labels, cs)[1..] == ApplyCatches(labels, cs[1..]);
    }
  }
}

/** Label names: generating them, replacing branch depths by them, and finding them again in
    the C writer. Every branch keeps its target. */
module Naming {
  import opened Ir
  import opened Typing
  import opened Lowering
  import opened LoweringShape

  // ----- numbers in decimal -----

  const DIGITS: string := "0123456789"

  function Decimal(n: nat): (s: string)
    ensures s != ""
  {
    if n < 10 then [DIGITS[n]] else Decimal(n / 10) + [DIGITS[n % 10]]
  }

  function DigitValue(c: char): nat {
    if '0' <= c <= '9' then (c as int) - ('0' as int) else 0
  }

  function Number(s: string): nat {
    if s == "" then 0 else 10 * Number(s[..|s| - 1]) + DigitValue(s[|s| - 1])
  }

  lemma DigitIs(d: nat)
    requires d < 10
    ensures DigitValue(DIGITS[d]) == d && '0' <= DIGITS[d] <= '9' && (d > 0 ==> DIGITS[d] != '0')
  {
    assert DIGITS == ['0', '1', '2', '3', '4', '5', '6', '7', '8', '9'];
  }

  /** Digits without a leading zero, and what they stand for. */
  lemma {:induction false} NumberDecimal(n: nat)
    ensures Number(Decimal(n)) == n
    ensures (forall c | c in Decimal(n) :: '0' <= c <= '9') && (n > 0 ==> Decimal(n)[0] != '0')
  {
    DigitIs(n % 10);
    var s := Decimal(n);
    if n >= 10 {
      assert s[..|s| - 1] == Decimal(n / 10);
      NumberDecimal(n / 10);
    } else {
      assert s[..|s| - 1] == "";
    }
  }

  // ----- generating names -----

  /** GenerateName with a one-character prefix and no disambiguator. */
  function LabelName(prefix: char, i: nat): string { "$" + [prefix] + Decimal(i) }

  /** The number in a generated name. */
  function Num(name: string): nat { if |name| > 2 then Number(name[2..]) else 0 }

  lemma NumOfName(prefix: char, i: nat)
    ensures Num(LabelName(prefix, i)) == i && LabelName(prefix, i) != ""
  {
    NumberDecimal(i);
    assert LabelName(prefix, i)[2..] == Decimal(i);
  }

  function MaybeName(prefix: char, i: nat, name: string): string {
    if name == "" then LabelName(prefix, i) else name
  }

  /** Names for the labels of a list, numbered from `k` in visiting order, and the next number. */
  function GenList(es: seq<Expr>, k: nat): (seq<Expr>, nat)
    decreases es, 0
  {
    if es == [] then ([], k)
    else
      var (e1, k1) := GenExpr(es[0], k);
      var (r, k2) := GenList(es[1..], k1);
      ([e1] + r, k2)
  }

  function GenExpr(e: Expr, k: nat): (Expr, nat)
    decreases e, 1
  {
    match e
    case Block(l, d, b) => var (b1, k1) := GenList(b, k + 1); (Block(MaybeName('B', k, l), d, b1), k1)
    case Loop(l, d, b) => var (b1, k1) := GenList(b, k + 1); (Loop(MaybeName('L', k, l), d, b1), k1)
    case If(l, d, a, b) =>
      var (a1, k1) := GenList(a, k + 1);
      var (b1, k2) := GenList(b, k1);
      (If(MaybeName('I', k, l), d, a1, b1), k2)
    case Try(l, d, b, kind, cs, v) =>
      var (b1, k1) := GenList(b, k + 1);
      var (cs1, k2) := if kind == CatchTry then GenCatches(cs, k1) else (cs, k1);
      (Try(MaybeName('T', k, l), d, b1, kind, cs1, v), k2)
    case _ => (e, k)
  }

  function GenCatches(cs: seq<Catch>, k: nat): (seq<Catch>, nat)
    decreases cs, 0
  {
    if cs == [] then ([], k)
    else
      var (es, k1) := GenList(cs[0].exprs, k);
      var (r, k2) := GenCatches(cs[1..], k1);
      ([Catch(cs[0].tag, es)] + r, k2)
  }

  /** No label has a name yet, and only tries with clauses have clauses. */
  predicate Unnamed(es: seq<Expr>)
    decreases es, 0
  {
    es == [] || (UnnamedExpr(es[0]) && Unnamed(es[1..]))
  }

  predicate UnnamedExpr(e: Expr)
    decreases e, 1
  {
    match e
    case Block(l, _, b) => l == "" && Unnamed(b)
    case Loop(l, _, b) => l == "" && Unnamed(b)
    case If(l, _, a, b) => l == "" && Unnamed(a) && Unnamed(b)
    case Try(l, _, b, kind, cs, _) => l == "" && Unnamed(b) && UnnamedCatches(cs) && (kind != CatchTry ==> cs == [])
    case _ => true
  }

  predicate UnnamedCatches(cs: seq<Catch>)
    decreases cs, 0
  {
    cs == [] || (Unnamed(cs[0].exprs) && UnnamedCatches(cs[1..]))
  }

  /** Names numbered below `k`. */
  predicate NumberedBelow(names: set<string>, k: nat) { forall n | n in names :: Num(n) < k }

  predicate NumberedIn(names: set<string>, k: nat, k1: nat) { forall n | n in names :: k <= Num(n) < k1 }

  /** Generated names are distinct: the named tree is fit for the C writer. */
  lemma {:induction false} GeneratedFresh(es: seq<Expr>, k: nat, used: set<string>)
    requires Unnamed(es) && NumberedBelow(used, k)
    ensures var (es1, k1) := GenList(es, k); k <= k1 && Fresh(es1, used) && NumberedIn(Names(es1), k, k1)
    decreases es, 0
  {
    hide GenExpr, UnnamedExpr, FreshExpr, ExprNames;
    if es != [] {
      var (e1, k1) := GenExpr(es[0], k);
      var (r, k2) := GenList(es[1..], k1);
      GeneratedFreshExpr(es[0], k, used);
      GeneratedFresh(es[1..], k1, used + ExprNames(e1));
      var all := [e1] + r;
      assert all[1..] == r;
    }
  }

  lemma {:induction false} GeneratedFreshExpr(e: Expr, k: nat, used: set<string>)
    requires UnnamedExpr(e) && NumberedBelow(used, k)
    ensures var (e1, k1) := GenExpr(e, k); k <= k1 && FreshExpr(e1, used) && NumberedIn(ExprNames(e1), k, k1)
    decreases e, 1
  {
    hide GenList, GenCatches, Unnamed, UnnamedCatches, Fresh, FreshCatches, Names, CatchNames, LabelName, Num;
    match e
    case Block(_, _, b) => NumOfName('B', k); GeneratedFresh(b, k + 1, used + {LabelName('B', k)});
    case Loop(_, _, b) => NumOfName('L', k); GeneratedFresh(b, k + 1, used + {LabelName('L', k)});
    case If(_, _, a, b) =>
      var l := LabelName('I', k);
      NumOfName('I', k);
      GeneratedFresh(a, k + 1, used + {l});
      var (a1, k1) := GenList(a, k + 1);
      GeneratedFresh(b, k1, used + {l} + Names(a1));
    case Try(_, _, b, kind, cs, v) =>
      var l := LabelName('T', k);
      NumOfName('T', k);
      GeneratedFresh(b, k + 1, used + {l});
      var (b1, k1) := GenList(b, k + 1);
      if kind == CatchTry {
        GeneratedFreshCatches(cs, k1, used + {l} + Names(b1));
      } else {
        NoCatches(used + {l} + Names(b1));
      }
    case _ =>
  }

  lemma NoCatches(used: set<string>)
    ensures FreshCatches([], used) && CatchNames([]) == {}
  {}

  lemma {:induction false} GeneratedFreshCatches(cs: seq<Catch>, k: nat, used: set<string>)
    requires UnnamedCatches(cs) && NumberedBelow(used, k)
    ensures var (cs1, k1) := GenCatches(cs, k); k <= k1 && FreshCatches(cs1, used) && NumberedIn(CatchNames(cs1), k, k1)
    decreases cs, 0
  {
    hide GenList, Unnamed, Fresh, Names;
    if cs != [] {
      var (es, k1) := GenList(cs[0].exprs, k);
      var (r, k2) := GenCatches(cs[1..], k1);
      GeneratedFresh(cs[0].exprs, k, used);
      GeneratedFreshCatches(cs[1..], k1, used + Names(es));
      var all := [Catch(cs[0].tag, es)] + r;
      assert all[1..] == r && all[0].exprs == es;
    }
  }

  // ----- nothing but labels -----

  /** A tree without its labels. */
  function Bare(es: seq<Expr>): seq<Expr>
    decreases es, 0
  {
    if es == [] then [] else [BareExpr(es[0])] + Bare(es[1..])
  }

  function BareExpr(e: Expr): Expr
    decreases e, 1
  {
    match e
    case Block(_, d, b) => Block("", d, Bare(b))
    case Loop(_, d, b) => Loop("", d, Bare(b))
    case If(_, d, a, b) => If("", d, Bare(a), Bare(b))
    case Try(_, d, b, kind, cs, v) => Try("", d, Bare(b), kind, if kind == CatchTry then BareCatches(cs) else cs, v)
    case _ => e
  }

  function BareCatches(cs: seq<Catch>): seq<Catch>
    decreases cs, 0
  {
    if cs == [] then [] else [Catch(cs[0].tag, Bare(cs[0].exprs))] + BareCatches(cs[1..])
  }

  /** Generating names changes nothing but labels. */
  lemma {:induction false} GenKeeps(es: seq<Expr>, k: nat)
    ensures Bare(GenList(es, k).0) == Bare(es)
    decreases es, 0
  {
    hide GenExpr, BareExpr;
    if es != [] {
      var (e1, k1) := GenExpr(es[0], k);
      GenKeepsExpr(es[0], k);
      GenKeeps(es[1..], k1);
      assert GenList(es, k).0[1..] == GenList(es[1..], k1).0;
    }
  }

  lemma {:induction false} GenKeepsExpr(e: Expr, k: nat)
    ensures BareExpr(GenExpr(e, k).0) == BareExpr(e)
    decreases e, 1
  {
    hide GenList, GenCatches, Bare, BareCatches, MaybeName;
    match e
    case Block(_, _, b) => GenKeeps(b, k + 1);
    case Loop(_, _, b) => GenKeeps(b, k + 1);
    case If(_, _, a, b) => GenKeeps(a, k + 1); GenKeeps(b, GenList(a, k + 1).1);
    case Try(_, _, b, kind, cs, _) =>
      GenKeeps(b, k + 1);
      if kind == CatchTry { GenKeepsCatches(cs, GenList(b, k + 1).1); }
    case _ =>
  }

  lemma {:induction false} GenKeepsCatches(cs: seq<Catch>, k: nat)
    ensures BareCatches(GenCatches(cs, k).0) == BareCatches(cs)
    decreases cs, 0
  {
    hide GenList, Bare;
    if cs != [] {
      var (es, k1) := GenList(cs[0].exprs, k);
      GenKeeps(cs[0].exprs, k);
      GenKeepsCatches(cs[1..], k1);
      assert GenCatches(cs, k).0[1..] == GenCatches(cs[1..], k1).0;
    }
  }

  // ----- applying names -----

  /** FindLabelByVar on an index, and UseNameForVar. */
  function ApplyVar(labels: seq<string>, v: Var): Var {
    match v
    case Name(_) => v
    case Index(d) =>
      if d >= |labels| then v
      else var n := labels[|labels| - 1 - d]; if n == "" then v else Name(n)
  }

  /** `v` goes to the label at `i`: by its depth, or as the innermost one with its name. */
  predicate GoesTo(labels: seq<string>, v: Var, i: nat) {
    && i < |labels|
    && match v
       case Index(d) => i == |labels| - 1 - d
       case Name(n) => labels[i] == n && forall j | i < j < |labels| :: labels[j] != n
  }

  /** Whatever the labels are called, applying names keeps where a variable goes exactly if the
      label has no name or no label inside it has the same one; and what goes nowhere is kept. */
  lemma AppliedGoes(labels: seq<string>, v: Var, i: nat)
    ensures GoesTo(labels, v, i) ==>
        (GoesTo(labels, ApplyVar(labels, v), i) <==>
            labels[i] == "" || v.Name? || forall j | i < j < |labels| :: labels[j] != labels[i])
    ensures v.Index? && v.depth >= |labels| ==> ApplyVar(labels, v) == v
  {}

  function ApplyVars(labels: seq<string>, vs: seq<Var>): (r: seq<Var>)
    ensures |r| == |vs| && forall i | 0 <= i < |vs| :: r[i] == ApplyVar(labels, vs[i])
  {
    if vs == [] then [] else [ApplyVar(labels, vs[0])] + ApplyVars(labels, vs[1..])
  }

  function ApplyList(labels: seq<string>, es: seq<Expr>): seq<Expr>
    decreases es, 0
  {
    if es == [] then [] else [ApplyExpr(labels, es[0])] + ApplyList(labels, es[1..])
  }

  function ApplyExpr(labels: seq<string>, e: Expr): Expr
    decreases e, 1
  {
    match e
    case Br(v) => Br(ApplyVar(labels, v))
    case BrIf(v) => BrIf(ApplyVar(labels, v))
    case BrTable(vs, d) => BrTable(ApplyVars(labels, vs), ApplyVar(labels, d))
    case Rethrow(v) => Rethrow(ApplyVar(labels, v))
    case Block(l, d, b) => Block(l, d, ApplyList(labels + [l], b))
    case Loop(l, d, b) => Loop(l, d, ApplyList(labels + [l], b))
    case If(l, d, a, b) => If(l, d, ApplyList(labels + [l], a), ApplyList(labels + [l], b))
    case Try(l, d, b, kind, cs, v) =>
      Try(l, d, ApplyList(labels + [l], b), kind,
          if kind == CatchTry then ApplyCatches(labels + [l], cs) else cs,
          if kind == DelegateTry then ApplyVar(labels, v) else v)
    case _ => e
  }

  function ApplyCatches(labels: seq<string>, cs: seq<Catch>): seq<Catch>
    decreases cs, 0
  {
    if cs == [] then [] else [Catch(cs[0].tag, ApplyList(labels, cs[0].exprs))] + ApplyCatches(labels, cs[1..])
  }

  /** A variable that is a name already is that of an open label. */
  predicate NameOpen(labels: seq<string>, v: Var) {
    v.Name? ==> v.name == "" || v.name in labels
  }

  predicate NamesOpen(labels: seq<string>, es: seq<Expr>)
    decreases es, 0
  {
    es == [] || (NamesOpenIn(labels, es[0]) && NamesOpen(labels, es[1..]))
  }

  predicate NamesOpenIn(labels: seq<string>, e: Expr)
    decreases e, 1
  {
    match e
    case Br(v) => NameOpen(labels, v)
    case BrIf(v) => NameOpen(labels, v)
    case BrTable(vs, d) => NameOpen(labels, d) && forall v | v in vs :: NameOpen(labels, v)
    case Rethrow(v) => NameOpen(labels, v)
    case Block(l, _, b) => NamesOpen(labels + [l], b)
    case Loop(l, _, b) => NamesOpen(labels + [l], b)
    case If(l, _, a, b) => NamesOpen(labels + [l], a) && NamesOpen(labels + [l], b)
    case Try(l, _, b, kind, cs, v) =>
      && NamesOpen(labels + [l], b) && (kind == CatchTry ==> NamesOpenCatches(labels + [l], cs))
      && (kind == DelegateTry ==> NameOpen(labels, v))
    case _ => true
  }

  predicate NamesOpenCatches(labels: seq<string>, cs: seq<Catch>)
    decreases cs, 0
  {
    cs == [] || (NamesOpen(labels, cs[0].exprs) && NamesOpenCatches(labels, cs[1..]))
  }

  // ----- the C writer finds the same label -----

  /** The C writer's label stack inside blocks with these names. */
  function Entries(labels: seq<string>): (r: seq<LabelEntry>)
    ensures |r| == |labels| + 1 && r[0].frame.name == ""
        && forall i | 0 <= i < |labels| :: r[i + 1].frame.name == labels[i]
  {
    seq(|labels| + 1, i requires 0 <= i <= |labels| =>
      LabelEntry(Frame(if i == 0 then "" else labels[i - 1], []), if i == 0 then FuncKind else BlockKind, 0, 0, false))
  }

  /** `v` was a depth inside `labels`; from inside `inner` the C writer finds the same label. */
  predicate Finds(labels: seq<string>, inner: seq<string>, v: Var, v1: Var) {
    && v.Index? && v.depth <= |labels|
    && FindLabel(Entries(inner), v1) == |labels| - v.depth
    && (v1.Index? ==> v1.depth == |labels|)
  }

  /** Every branch of the named tree `b` goes where the same branch of `a` went by depth. */
  predicate SameTargets(labels: seq<string>, a: seq<Expr>, b: seq<Expr>)
    decreases a, 0
  {
    |a| == |b| && (a == [] || (SameTargetsIn(labels, a[0], b[0]) && SameTargets(labels, a[1..], b[1..])))
  }

  predicate SameTargetsIn(labels: seq<string>, a: Expr, b: Expr)
    decreases a, 1
  {
    match a
    case Br(v) => b.Br? && Finds(labels, labels, v, b.target)
    case BrIf(v) => b.BrIf? && Finds(labels, labels, v, b.target)
    case BrTable(vs, d) =>
      b.BrTable? && |b.targets| == |vs| && Finds(labels, labels, d, b.default)
      && forall i | 0 <= i < |vs| :: Finds(labels, labels, vs[i], b.targets[i])
    case Rethrow(v) => b.Rethrow? && Finds(labels, labels, v, b.target)
    case Block(l, d, body) => b.Block? && b.name == l && b.decl == d && SameTargets(labels + [l], body, b.body)
    case Loop(l, d, body) => b.Loop? && b.name == l && b.decl == d && SameTargets(labels + [l], body, b.body)
    case If(l, d, x, y) =>
      b.If? && b.name == l && b.decl == d && SameTargets(labels + [l], x, b.thn) && SameTargets(labels + [l], y, b.els)
    case Try(l, d, body, kind, cs, v) =>
      && b.Try? && b.name == l && b.decl == d && b.kind == kind && SameTargets(labels + [l], body, b.body)
      && (if kind == CatchTry then SameTargetsCatches(labels + [l], cs, b.catches) else b.catches == cs)
      && (kind == DelegateTry ==> Finds(labels, labels + [l], v, b.delegate))
    case _ => b == a
  }

  predicate SameTargetsCatches(labels: seq<string>, a: seq<Catch>, b: seq<Catch>)
    decreases a, 0
  {
    |a| == |b| && (a == [] || (a[0].tag == b[0].tag && SameTargets(labels, a[0].exprs, b[0].exprs)
        && SameTargetsCatches(labels, a[1..], b[1..])))
  }

  /** Branches by depth, to labels that exist. */
  predicate Scoped(es: seq<Expr>, depth: nat)
    decreases es, 0
  {
    es == [] || (ScopedExpr(es[0], depth) && Scoped(es[1..], depth))
  }

  predicate InScope(v: Var, depth: nat) { v.Index? && v.depth <= depth }

  predicate ScopedExpr(e: Expr, depth: nat)
    decreases e, 1
  {
    match e
    case Br(v) => InScope(v, depth)
    case BrIf(v) => InScope(v, depth)
    case BrTable(vs, d) => InScope(d, depth) && forall v | v in vs :: InScope(v, depth)
    case Rethrow(v) => InScope(v, depth)
    case Block(_, _, b) => Scoped(b, depth + 1)
    case Loop(_, _, b) => Scoped(b, depth + 1)
    case If(_, _, a, b) => Scoped(a, depth + 1) && Scoped(b, depth + 1)
    case Try(_, _, b, kind, cs, v) =>
      Scoped(b, depth + 1) && (kind == CatchTry ==> ScopedCatches(cs, depth + 1))
          && (kind == DelegateTry ==> InScope(v, depth))
    case _ => true
  }

  predicate ScopedCatches(cs: seq<Catch>, depth: nat)
    decreases cs, 0
  {
    cs == [] || (Scoped(cs[0].exprs, depth) && ScopedCatches(cs[1..], depth))
  }

  /** Non-empty and pairwise distinct. */
  predicate Distinct(labels: seq<string>) {
    && (forall i | 0 <= i < |labels| :: labels[i] != "")
    && forall i, j | 0 <= i < j < |labels| :: labels[i] != labels[j]
  }

  /** A distinct name is found where it stands. */
  lemma {:induction false} FindsAt(labels: seq<LabelEntry>, i: nat)
    requires 0 < i < |labels| && forall j | i < j < |labels| :: labels[j].frame.name != labels[i].frame.name
    ensures FindNamed(labels, labels[i].frame.name) == i
    decreases |labels|
  {
    if i < |labels| - 1 {
      var below := labels[..|labels| - 1];
      assert below[i] == labels[i];
      FindsAt(below, i);
    }
  }

  lemma ApplyFinds(labels: seq<string>, inner: seq<string>, v: Var)
    requires InScope(v, |labels|) && Distinct(inner) && labels <= inner
    ensures Finds(labels, inner, v, ApplyVar(labels, v))
  {
    if v.depth < |labels| {
      var i := |labels| - 1 - v.depth;
      assert inner[i] == labels[i];
      FindsAt(Entries(inner), i + 1);
    }
  }

  /** What is used so far includes the open labels. */
  predicate OpenIn(labels: seq<string>, used: set<string>) { forall i | 0 <= i < |labels| :: labels[i] in used }

  lemma {:induction false} ApplySame(labels: seq<string>, es: seq<Expr>, used: set<string>)
    requires Scoped(es, |labels|) && Fresh(es, used) && OpenIn(labels, used) && Distinct(labels)
    ensures SameTargets(labels, es, ApplyList(labels, es))
    decreases es, 0
  {
    hide ScopedExpr, FreshExpr, SameTargetsIn, ApplyExpr, ExprNames;
    if es != [] {
      ApplySameExpr(labels, es[0], used);
      ApplySame(labels, es[1..], used + ExprNames(es[0]));
      var r := ApplyList(labels, es);
      assert r[1..] == ApplyList(labels, es[1..]);
    }
  }

  lemma {:induction false} ApplySameExpr(labels: seq<string>, e: Expr, used: set<string>)
    requires ScopedExpr(e, |labels|) && FreshExpr(e, used) && OpenIn(labels, used) && Distinct(labels)
    ensures SameTargetsIn(labels, e, ApplyExpr(labels, e))
    decreases e, 1
  {
    hide Scoped, ScopedCatches, Fresh, FreshCatches, SameTargets, SameTargetsCatches, ApplyList, ApplyCatches,
        ApplyVar, Names, CatchNames, Finds;
    match e
    case Br(v) => ApplyFinds(labels, labels, v);
    case BrIf(v) => ApplyFinds(labels, labels, v);
    case BrTable(vs, d) =>
      ApplyFinds(labels, labels, d);
      forall i | 0 <= i < |vs| ensures Finds(labels, labels, vs[i], ApplyVars(labels, vs)[i]) {
        ApplyFinds(labels, labels, vs[i]);
      }
    case Rethrow(v) => ApplyFinds(labels, labels, v);
    case Block(l, _, b) => ApplySame(labels + [l], b, used + {l});
    case Loop(l, _, b) => ApplySame(labels + [l], b, used + {l});
    case If(l, _, a, b) =>
      ApplySame(labels + [l], a, used + {l});
      ApplySame(labels + [l], b, used + {l} + Names(a));
    case Try(l, _, b, kind, cs, v) =>
      ApplySame(labels + [l], b, used + {l});
      if kind == CatchTry { ApplySameCatches(labels + [l], cs, used + {l} + Names(b)); }
      if kind == DelegateTry { ApplyFinds(labels, labels + [l], v); }
    case _ =>
  }

  lemma {:induction false} ApplySameCatches(labels: seq<string>, cs: seq<Catch>, used: set<string>)
    requires ScopedCatches(cs, |labels|) && FreshCatches(cs, used) && OpenIn(labels, used) && Distinct(labels)
    ensures SameTargetsCatches(labels, cs, ApplyCatches(labels, cs))
    decreases cs, 0
  {
    hide Scoped, Fresh, SameTargets, ApplyList, Names;
    if cs != [] {
      ApplySame(labels, cs[0].exprs, used);
      ApplySameCatches(labels, cs[1..], used + Names(cs[0].exprs));
      var r := ApplyCatches(labels, cs);
      assert r[1..] == ApplyCatches(labels, cs[1..]);
    }
  }

  /** Generating names leaves branches alone. */
  lemma {:induction false} GenScoped(es: seq<Expr>, k: nat, depth: nat)
    requires Scoped(es, depth)
    ensures Scoped(GenList(es, k).0, depth)
    decreases es, 0
  {
    hide GenExpr, ScopedExpr;
    if es != [] {
      var (e1, k1) := GenExpr(es[0], k);
      GenScopedExpr(es[0], k, depth);
      GenScoped(es[1..], k1, depth);
      var r := GenList(es, k).0;
      assert r[1..] == GenList(es[1..], k1).0;
    }
  }

  lemma {:induction false} GenScopedExpr(e: Expr, k: nat, depth: nat)
    requires ScopedExpr(e, depth)
    ensures ScopedExpr(GenExpr(e, k).0, depth)
    decreases e, 1
  {
    hide GenList, GenCatches, Scoped, ScopedCatches, LabelName;
    match e
    case Block(_, _, b) => GenScoped(b, k + 1, depth + 1);
    case Loop(_, _, b) => GenScoped(b, k + 1, depth + 1);
    case If(_, _, a, b) => GenScoped(a, k + 1, depth + 1); GenScoped(b, GenList(a, k + 1).1, depth + 1);
    case Try(_, _, b, kind, cs, _) =>
      GenScoped(b, k + 1, depth + 1);
      if kind == CatchTry { GenScopedCatches(cs, GenList(b, k + 1).1, depth + 1); }
    case _ =>
  }

  lemma {:induction false} GenScopedCatches(cs: seq<Catch>, k: nat, depth: nat)
    requires ScopedCatches(cs, depth)
    ensures ScopedCatches(GenCatches(cs, k).0, depth)
    decreases cs, 0
  {
    hide GenList, Scoped;
    if cs != [] {
      var (es, k1) := GenList(cs[0].exprs, k);
      GenScoped(cs[0].exprs, k, depth);
      GenScopedCatches(cs[1..], k1, depth);
      var r := GenCatches(cs, k).0;
      assert r[1..] == GenCatches(cs[1..], k1).0 && r[0].exprs == es;
    }
  }

  /** The two passes on a function whose labels start unnamed: labels get distinct names and
      nothing else changes, and then every branch by depth is found by the C writer as the same
      label and nothing else changes. */
  lemma NamesAgreeWithDepths(body: seq<Expr>)
    requires Unnamed(body) && Scoped(body, 0)
    ensures var named := GenList(body, 0).0;
            && Bare(named) == Bare(body) && Fresh(named, {})
            && SameTargets([], named, ApplyList([], named))
  {
    hide GenList, Unnamed, Scoped, Fresh, SameTargets, ApplyList, Bare;
    GenKeeps(body, 0);
    GeneratedFresh(body, 0, {});
    GenScoped(body, 0, 0);
    ApplySame([], GenList(body, 0).0, {});
  }

  /** Applying names keeps the label names, so the result is still fit for the C writer. */
  lemma {:induction false} ApplyFresh(labels: seq<string>, es: seq<Expr>, used: set<string>)
    requires Fresh(es, used)
    ensures Fresh(ApplyList(labels, es), used) && Names(ApplyList(labels, es)) == Names(es)
    decreases es, 0
  {
    hide FreshExpr, ExprNames, ApplyExpr;
    if es != [] {
      ApplyFreshExpr(labels, es[0], used);
      ApplyFresh(labels, es[1..], used + ExprNames(es[0]));
      var r := ApplyList(labels, es);
      assert r[1..] == ApplyList(labels, es[1..]);
    }
  }

  lemma {:induction false} ApplyFreshExpr(labels: seq<string>, e: Expr, used: set<string>)
    requires FreshExpr(e, used)
    ensures FreshExpr(ApplyExpr(labels, e), used) && ExprNames(ApplyExpr(labels, e)) == ExprNames(e)
    decreases e, 1
  {
    hide Fresh, FreshCatches, Names, CatchNames, ApplyList, ApplyCatches, ApplyVar;
    match e
    case Block(l, _, b) => ApplyFresh(labels + [l], b, used + {l});
    case Loop(l, _, b) => ApplyFresh(labels + [l], b, used + {l});
    case If(l, _, a, b) => ApplyFresh(labels + [l], a, used + {l}); ApplyFresh(labels + [l], b, used + {l} + Names(a));
    case Try(l, _, b, kind, cs, _) =>
      ApplyFresh(labels + [l], b, used + {l});
      if kind == CatchTry { ApplyFreshCatches(labels + [l], cs, used + {l} + Names(b)); }
    case _ =>
  }

  lemma {:induction false} ApplyFreshCatches(labels: seq<string>, cs: seq<Catch>, used: set<string>)
    requires FreshCatches(cs, used)
    ensures FreshCatches(ApplyCatches(labels, cs), used) && CatchNames(ApplyCatches(labels, cs)) == CatchNames(cs)
    decreases cs, 0
  {
    hide Fresh, Names, ApplyList;
    if cs != [] {
      ApplyFresh(labels, cs[0].exprs, used);
      ApplyFreshCatches(labels, cs[1..], used + Names(cs[0].exprs));
      var r := ApplyCatches(labels, cs);
      assert r[1..] == ApplyCatches(labels, cs[1..]) && r[0].exprs == ApplyList(labels, cs[0].exprs);
    }
  }

  // ----- the two passes -----

  class NameGenerator {
    var labelCount: nat

    constructor ()
      ensures labelCount == 0
    {
      labelCount := 0;
    }

    /** MaybeGenerateName(prefix, label_count_++, label). */
    method NextName(prefix: char, label0: string) returns (name: string)
      modifies this
      ensures name == MaybeName(prefix, old(labelCount), label0) && labelCount == old(labelCount) + 1
    {
      name := if label0 == "" then LabelName(prefix, labelCount) else label0;
      labelCount := labelCount + 1;
    }

    /** A function starts counting again. */
    method VisitFunc(body: seq<Expr>) returns (r: seq<Expr>)
      modifies this
      ensures r == GenList(body, 0).0
    {
      labelCount := 0;
      r := VisitExprList(body);
    }

    method VisitExprList(es: seq<Expr>) returns (r: seq<Expr>)
      modifies this
      ensures (r, labelCount) == GenList(es, old(labelCount))
      decreases es, 0
    {
      hide GenExpr;
      r := [];
      var i := 0;
      assert es[0..] == es && r + GenList(es, labelCount).0 == GenList(es, labelCount).0;
      while i < |es|
        invariant 0 <= i <= |es|
        invariant GenList(es, old(labelCount)) == (r + GenList(es[i..], labelCount).0, GenList(es[i..], labelCount).1)
      {
        assert es[i..][1..] == es[i + 1..];
        var e := VisitExpr(es[i]);
        assert r + ([e] + GenList(es[i + 1..], labelCount).0) == r + [e] + GenList(es[i + 1..], labelCount).0;
        r := r + [e];
        i := i + 1;
      }
      assert r + [] == r;
    }

    method VisitExpr(e: Expr) returns (r: Expr)
      modifies this
      ensures (r, labelCount) == GenExpr(e, old(labelCount))
      decreases e, 1
    {
      hide GenList, GenCatches, LabelName;
      match e {
        case Block(l, d, b) =>
          var name := NextName('B', l);
          var b1 := VisitExprList(b);
          r := Block(name, d, b1);
        case Loop(l, d, b) =>
          var name := NextName('L', l);
          var b1 := VisitExprList(b);
          r := Loop(name, d, b1);
        case If(l, d, a, b) =>
          var name := NextName('I', l);
          var a1 := VisitExprList(a);
          var b1 := VisitExprList(b);
          r := If(name, d, a1, b1);
        case Try(l, d, b, kind, cs, v) =>
          var name := NextName('T', l);
          var b1 := VisitExprList(b);
          var cs1 := cs;
          if kind == CatchTry { cs1 := VisitCatches(cs); }
          r := Try(name, d, b1, kind, cs1, v);
        case _ => r := e;
      }
    }

    method VisitCatches(cs: seq<Catch>) returns (r: seq<Catch>)
      modifies this
      ensures (r, labelCount) == GenCatches(cs, old(labelCount))
      decreases cs, 0
    {
      hide GenList;
      r := [];
      var i := 0;
      assert cs[0..] == cs && r + GenCatches(cs, labelCount).0 == GenCatches(cs, labelCount).0;
      while i < |cs|
        invariant 0 <= i <= |cs|
        invariant GenCatches(cs, old(labelCount)) == (r + GenCatches(cs[i..], labelCount).0,
            GenCatches(cs[i..], labelCount).1)
      {
        assert cs[i..][1..] == cs[i + 1..];
        var es := VisitExprList(cs[i].exprs);
        var c := Catch(cs[i].tag, es);
        assert r + ([c] + GenCatches(cs[i + 1..], labelCount).0) == r + [c] + GenCatches(cs[i + 1..], labelCount).0;
        r := r + [c];
        i := i + 1;
      }
      assert r + [] == r;
    }
  }

  class NameApplier {
    var labels: seq<string>

    constructor ()
      ensures labels == []
    {
      labels := [];
    }

    method PushLabel(name: string)
      modifies this
      ensures labels == old(labels) + [name]
    {
      labels := labels + [name];
    }

    method PopLabel()
      requires labels != []
      modifies this
      ensures labels == old(labels)[..|old(labels)| - 1]
    {
      labels := labels[..|labels| - 1];
    }

    /** The innermost label of that name, or the label at that depth; none is the empty name. */
    method FindLabelByVar(v: Var) returns (name: string)
      ensures v.Name? ==> name == if v.name in labels then v.name else ""
      ensures v.Index? ==> name == if v.depth < |labels| then labels[|labels| - 1 - v.depth] else ""
    {
      match v {
        case Name(n) =>
          var i := |labels|;
          while i > 0
            invariant 0 <= i <= |labels|
            invariant forall j | i <= j < |labels| :: labels[j] != n
          {
            i := i - 1;
            if labels[i] == n { return n; }
          }
          return "";
        case Index(d) =>
          if d >= |labels| { return ""; }
          return labels[|labels| - 1 - d];
      }
    }

    /** Fails, as an assertion does, on a name that is not that of an open label. */
    method UseName(v: Var) returns (r: Option<Var>)
      ensures r.Some? <==> NameOpen(labels, v)
      ensures r.Some? ==> r.value == ApplyVar(labels, v)
    {
      var name := FindLabelByVar(v);
      match v {
        case Name(n) => r := if name == n then Some(v) else None;
        case Index(_) => r := Some(if name == "" then v else Name(name));
      }
    }

    method UseNames(vs: seq<Var>) returns (r: Option<seq<Var>>)
      ensures r.Some? <==> forall v | v in vs :: NameOpen(labels, v)
      ensures r.Some? ==> r.value == ApplyVars(labels, vs)
    {
      var names: seq<Var> := [];
      var i := 0;
      while i < |vs|
        invariant 0 <= i <= |vs| && |names| == i
        invariant forall j | 0 <= j < i :: NameOpen(labels, vs[j]) && names[j] == ApplyVar(labels, vs[j])
      {
        var v :- UseName(vs[i]);
        names := names + [v];
        i := i + 1;
      }
      assert names == ApplyVars(labels, vs);
      r := Some(names);
    }

    method VisitExprList(es: seq<Expr>) returns (r: Option<seq<Expr>>)
      modifies this
      ensures r.Some? <==> NamesOpen(old(labels), es)
      ensures r.Some? ==> r.value == ApplyList(old(labels), es) && labels == old(labels)
      decreases es, 0
    {
      hide ApplyExpr, NamesOpenIn;
      var done: seq<Expr> := [];
      var i := 0;
      assert es[0..] == es;
      while i < |es|
        invariant 0 <= i <= |es| && labels == old(labels)
        invariant NamesOpen(labels, es) == NamesOpen(labels, es[i..])
        invariant ApplyList(labels, es) == done + ApplyList(labels, es[i..])
      {
        assert es[i..][1..] == es[i + 1..];
        var e :- VisitExpr(es[i]);
        done := done + [e];
        i := i + 1;
      }
      r := Some(done);
    }

    method VisitExpr(e: Expr) returns (r: Option<Expr>)
      modifies this
      ensures r.Some? <==> NamesOpenIn(old(labels), e)
      ensures r.Some? ==> r.value == ApplyExpr(old(labels), e) && labels == old(labels)
      decreases e, 1
    {
      hide ApplyList, ApplyCatches, ApplyVar, NamesOpen, NamesOpenCatches, NameOpen;
      ghost var here := labels;
      match e {
        case Br(v) =>
          var v1 :- UseName(v);
          r := Some(Br(v1));
        case BrIf(v) =>
          var v1 :- UseName(v);
          r := Some(BrIf(v1));
        case Rethrow(v) =>
          var v1 :- UseName(v);
          r := Some(Rethrow(v1));
        case BrTable(vs, d) =>
          var vs1 :- UseNames(vs);
          var d1 :- UseName(d);
          r := Some(BrTable(vs1, d1));
        case Block(l, d, b) =>
          PushLabel(l);
          var b1 :- VisitExprList(b);
          PopLabel();
          assert labels == here;
          r := Some(Block(l, d, b1));
        case Loop(l, d, b) =>
          PushLabel(l);
          var b1 :- VisitExprList(b);
          PopLabel();
          assert labels == here;
          r := Some(Loop(l, d, b1));
        case If(l, d, a, b) =>
          PushLabel(l);
          var a1 :- VisitExprList(a);
          var b1 :- VisitExprList(b);
          PopLabel();
          assert labels == here;
          r := Some(If(l, d, a1, b1));
        case Try(l, d, b, kind, cs, v) =>
          PushLabel(l);
          var b1 :- VisitExprList(b);
          var cs1, v1 := cs, v;
          if kind == CatchTry { cs1 :- VisitCatches(cs); }
          PopLabel();
          assert labels == here;
          if kind == DelegateTry { v1 :- UseName(v); }      // resolved outside the try
          r := Some(Try(l, d, b1, kind, cs1, v1));
        case _ => r := Some(e);
      }
    }

    method VisitCatches(cs: seq<Catch>) returns (r: Option<seq<Catch>>)
      modifies this
      ensures r.Some? <==> NamesOpenCatches(old(labels), cs)
      ensures r.Some? ==> r.value == ApplyCatches(old(labels), cs) && labels == old(labels)
      decreases cs, 0
    {
      hide ApplyList, NamesOpen;
      var done: seq<Catch> := [];
      var i := 0;
      assert cs[0..] == cs;
      while i < |cs|
        invariant 0 <= i <= |cs| && labels == old(labels)
        invariant NamesOpenCatches(labels, cs) == NamesOpenCatches(labels, cs[i..])
        invariant ApplyCatches(labels, cs) == done + ApplyCatches(labels, cs[i..])
      {
        assert cs[i..][1..] == cs[i + 1..];
        var es :- VisitExprList(cs[i].exprs);
        done := done + [Catch(cs[i].tag, es)];
        i := i + 1;
      }
      r := Some(done);
    }
  }
}

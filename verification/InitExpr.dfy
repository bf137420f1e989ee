/** Constant expressions: the text built on a mini stack, read as C, has the value of the
    stack machine. */
module InitExpr {
  import opened Ir
  import opened Wasm
  import Typing

  /** The tokens of the text. A leaf is a literal or a global, printed as one primary expression. */
  datatype Token = Open | Close | TypeName(ty: Type) | Plus | Minus | Star | Atom(v: Value)

  type Text = seq<Token>

  // ----- the expressions and the stack machine -----

  /** An instruction of an extended constant expression. */
  datatype Item = Leaf(v: Value) | Apply(op: BinOp, ty: Type)

  predicate Arithmetic(op: BinOp) { op == Add || op == Sub || op == Mul }

  predicate Fits(v: Value) { (v.ty == I32 || v.ty == I64) && v.bits < Modulus(v.ty) }

  /** The numeric instructions; only those that do not trap are constant expressions. */
  function Compute(op: BinOp, ty: Type, x: nat, y: nat): Value {
    var r := BinResult(ty, op, x, y);
    Value(ty, if r.Some? then r.value else 0)
  }

  /** Running the instructions; None when one finds no operands. */
  function Evaluate(items: seq<Item>, stack: seq<Value>): Option<seq<Value>>
    decreases |items|
  {
    if items == [] then Some(stack)
    else match items[0]
         case Leaf(v) => Evaluate(items[1..], stack + [v])
         case Apply(op, ty) =>
           var n := |stack|;
           if n < 2 then None
           else Evaluate(items[1..], stack[..n - 2] + [Compute(op, ty, stack[n - 2].bits, stack[n - 1].bits)])
  }

  /** Validated items: operands of the operator's type, one value in the end. */
  predicate Valid(items: seq<Item>, types: seq<Type>)
    decreases |items|
  {
    if items == [] then |types| == 1
    else match items[0]
         case Leaf(v) => Fits(v) && Valid(items[1..], types + [v.ty])
         case Apply(op, ty) =>
           var n := |types|;
           && n >= 2 && types[n - 2] == ty && types[n - 1] == ty && (ty == I32 || ty == I64) && Arithmetic(op)
           && Valid(items[1..], types[..n - 2] + [ty])
  }

  /** The instructions of a constant expression; globals are constants here. */
  function Instrs(items: seq<Item>): seq<Expr> {
    if items == [] then []
    else [Plain(match items[0] case Leaf(v) => Const(v) case Apply(op, ty) => Binary(ty, op))] + Instrs(items[1..])
  }

  /** Running a constant expression is running its instructions as those of a function body. */
  lemma {:induction false} EvaluateMeans(env: Env, host: Host, items: seq<Item>, m: Machine, types: seq<Type>,
      caught: Caught, fuel: nat)
    requires Valid(items, types) && |types| == |m.stack|
    ensures Evaluate(items, m.stack).Some?
    ensures EvalList(env, host, Instrs(items), caught, m, fuel) == Next(m.(stack := Evaluate(items, m.stack).value))
    decreases |items|
  {
    hide BinResult;
    if items != [] {
      var rest := Instrs(items[1..]);
      assert Instrs(items)[1..] == rest;
      match items[0]
      case Leaf(v) =>
        assert DropN(m.stack, 0) == m.stack;
        EvaluateMeans(env, host, items[1..], m.(stack := m.stack + [v]), types + [v.ty], caught, fuel);
      case Apply(op, ty) =>
        var n := |m.stack|;
        NoTrap(op, ty, m.stack[n - 2].bits, m.stack[n - 1].bits);
        var v := Compute(op, ty, m.stack[n - 2].bits, m.stack[n - 1].bits);
        EvaluateMeans(env, host, items[1..], m.(stack := m.stack[..n - 2] + [v]), types[..n - 2] + [ty], caught, fuel);
    }
  }

  /** Integer constants of their width, and the three operators that never trap. */
  predicate Constant(items: seq<Item>) {
    items == [] || (ConstantItem(items[0]) && Constant(items[1..]))
  }

  predicate ConstantItem(item: Item) {
    match item
    case Leaf(v) => (v.ty == I32 && v.bits < 0x1_0000_0000) || (v.ty == I64 && v.bits < 0x1_0000_0000_0000_0000)
    case Apply(op, _) => op == Add || op == Sub || op == Mul
  }

  /** The types behind an item. */
  function ItemTypes(item: Item, types: seq<Type>): Option<seq<Type>> {
    match item
    case Leaf(v) => Some(types + [v.ty])
    case Apply(_, ty) =>
      var n := |types|;
      if n >= 2 && types[n - 2] == types[n - 1] == ty && (ty == I32 || ty == I64) then Some(types[..n - 2] + [ty])
      else None
  }

  lemma ValidFirst(items: seq<Item>, types: seq<Type>)
    requires items != []
    ensures Valid(items, types) <==>
              && ConstantItem(items[0]) && ItemTypes(items[0], types).Some?
              && Valid(items[1..], ItemTypes(items[0], types).value)
  {}

  lemma TypedFirst(env: Env, items: seq<Item>, types: seq<Type>, fs: seq<Typing.Frame>)
    requires items != []
    ensures Typing.TypeList(env, Instrs(items), fs, {}, types) ==
              match ItemTypes(items[0], types)
              case None => Typing.Ill
              case Some(more) => Typing.TypeList(env, Instrs(items[1..]), fs, {}, more)
  {
    assert Instrs(items)[1..] == Instrs(items[1..]);
    assert types[|types|..] == [] && types[..|types|] == types;
    if |types| >= 2 { assert types[|types| - 2..] == [types[|types| - 2], types[|types| - 1]]; }
  }

  /** Items are valid exactly if they are constant and their instructions are typed as code that
      leaves one value. */
  lemma {:induction false} ValidIsTyped(env: Env, items: seq<Item>, types: seq<Type>, fs: seq<Typing.Frame>)
    ensures Valid(items, types) <==>
              var ty := Typing.TypeList(env, Instrs(items), fs, {}, types);
              Constant(items) && ty.Live? && |ty.ts| == 1
    decreases |items|
  {
    if items != [] {
      hide Valid, Typing.TypeList, ItemTypes, ConstantItem, Instrs;
      ValidFirst(items, types);
      TypedFirst(env, items, types, fs);
      match ItemTypes(items[0], types)
      case None =>
      case Some(more) => ValidIsTyped(env, items[1..], more, fs);
    }
  }

  lemma NoTrap(op: BinOp, ty: Type, x: nat, y: nat)
    requires Arithmetic(op)
    ensures BinResult(ty, op, x, y).Some?
  {}

  // ----- the text -----

  function Sign(op: BinOp): Token { match op case Add => Plus case Sub => Minus case _ => Star }

  /** ((T)a) */
  function Operand(ty: Type, a: Text): Text { [Open, Open, TypeName(ty), Close] + a + [Close] }

  function Combination(op: BinOp, ty: Type, a: Text, b: Text): Text {
    Operand(ty, a) + [Sign(op)] + Operand(ty, b)
  }

  datatype Tree = LeafTree(v: Value) | Node(op: BinOp, ty: Type, left: Tree, right: Tree)

  function Show(t: Tree): Text {
    match t
    case LeafTree(v) => [Atom(v)]
    case Node(op, ty, l, r) => Combination(op, ty, Show(l), Show(r))
  }

  function ValueOf(t: Tree): Value {
    match t
    case LeafTree(v) => v
    case Node(op, ty, l, r) => Compute(op, ty, ValueOf(l).bits, ValueOf(r).bits)
  }

  predicate Typed(t: Tree, ty: Type) {
    match t
    case LeafTree(v) => Fits(v) && v.ty == ty
    case Node(op, ty1, l, r) => ty1 == ty && (ty == I32 || ty == I64) && Arithmetic(op) && Typed(l, ty) && Typed(r, ty)
  }

  lemma ValueFits(t: Tree, ty: Type)
    requires Typed(t, ty)
    ensures Fits(ValueOf(t)) && ValueOf(t).ty == ty
  {}

  // ----- reading text as C -----

  datatype Parse = Parse(v: Value, rest: Text)

  /** A cast to an unsigned type. */
  function Cast(ty: Type, v: Value): Value { Value(ty, Wrap(ty, v.bits)) }

  /** The usual arithmetic conversions for the two unsigned types. */
  function Common(a: Type, b: Type): Type { if a == I64 || b == I64 then I64 else I32 }

  function Combine(op: Token, a: Value, b: Value): Value {
    var ty := Common(a.ty, b.ty);
    Value(ty, (match op
               case Plus => a.bits + b.bits
               case Minus => a.bits - b.bits
               case _ => Times(a.bits, b.bits)) % Modulus(ty))
  }

  /** additive: multiplicative { (+ | -) multiplicative } */
  function ReadSum(s: Text): (r: Option<Parse>)
    ensures r.Some? ==> |r.value.rest| < |s|
    decreases |s|, 3
  {
    match ReadProduct(s)
    case None => None
    case Some(a) => ReadSumRest(a.v, a.rest)
  }

  function ReadSumRest(v: Value, s: Text): (r: Option<Parse>)
    ensures r.Some? ==> |r.value.rest| <= |s|
    decreases |s|, 4
  {
    if s == [] || (s[0] != Plus && s[0] != Minus) then Some(Parse(v, s))
    else match ReadProduct(s[1..])
         case None => None
         case Some(b) => ReadSumRest(Combine(s[0], v, b.v), b.rest)
  }

  /** multiplicative: cast { * cast } */
  function ReadProduct(s: Text): (r: Option<Parse>)
    ensures r.Some? ==> |r.value.rest| < |s|
    decreases |s|, 2
  {
    match ReadCast(s)
    case None => None
    case Some(a) => ReadProductRest(a.v, a.rest)
  }

  function ReadProductRest(v: Value, s: Text): (r: Option<Parse>)
    ensures r.Some? ==> |r.value.rest| <= |s|
    decreases |s|, 4
  {
    if s == [] || s[0] != Star then Some(Parse(v, s))
    else match ReadCast(s[1..])
         case None => None
         case Some(b) => ReadProductRest(Combine(Star, v, b.v), b.rest)
  }

  /** cast: ( type ) cast | primary */
  function ReadCast(s: Text): (r: Option<Parse>)
    ensures r.Some? ==> |r.value.rest| < |s|
    decreases |s|, 1
  {
    if |s| >= 3 && s[0] == Open && s[1].TypeName? && s[2] == Close then
      match ReadCast(s[3..])
      case None => None
      case Some(a) => Some(Parse(Cast(s[1].ty, a.v), a.rest))
    else ReadPrimary(s)
  }

  /** primary: leaf | ( expression ) */
  function ReadPrimary(s: Text): (r: Option<Parse>)
    ensures r.Some? ==> |r.value.rest| < |s|
    decreases |s|, 0
  {
    if s == [] then None
    else if s[0].Atom? then Some(Parse(s[0].v, s[1..]))
    else if s[0] == Open then
      match ReadSum(s[1..])
      case None => None
      case Some(a) => if a.rest != [] && a.rest[0] == Close then Some(Parse(a.v, a.rest[1..])) else None
    else None
  }

  /** Where an expression ends. */
  predicate Stops(rest: Text) { rest == [] || rest[0] == Close }

  // ----- the text means the tree -----

  /** A cast operand in parentheses is a primary expression with the operand's value. */
  lemma {:induction false} OperandReads(ty: Type, t: Tree, rest: Text)
    requires Typed(t, ty)
    ensures ReadCast(Operand(ty, Show(t)) + rest) == Some(Parse(ValueOf(t), rest))
    decreases t, 1
  {
    hide ReadCast, ReadSum, ReadProduct, ReadPrimary, ReadSumRest, ReadProductRest, Show, Combine;
    var s := Operand(ty, Show(t)) + rest;
    var inner := [Open, TypeName(ty), Close] + Show(t) + ([Close] + rest);
    assert s == [Open] + inner;
    CastSumReads(ty, t, [Close] + rest);
    assert ReadSum(inner) == Some(Parse(ValueOf(t), [Close] + rest));
    ParenReads(s, inner, ValueOf(t), rest);
  }

  lemma ParenReads(s: Text, inner: Text, v: Value, rest: Text)
    requires s == [Open] + inner && |inner| >= 1 && inner[0] == Open
    requires ReadSum(inner) == Some(Parse(v, [Close] + rest))
    ensures ReadCast(s) == Some(Parse(v, rest))
  {
    hide ReadSum;
    assert s[1..] == inner;
    assert ([Close] + rest)[1..] == rest;
  }

  /** A cast in front of an expression's text reaches only its first operand; for these texts
      that changes nothing. */
  lemma {:induction false} CastSumReads(ty: Type, t: Tree, rest: Text)
    requires Typed(t, ty) && Stops(rest)
    ensures ReadSum([Open, TypeName(ty), Close] + Show(t) + rest) == Some(Parse(ValueOf(t), rest))
    decreases t, 0
  {
    hide ReadCast, ReadSum, ReadProduct, ReadPrimary, ReadSumRest, ReadProductRest, Combine, Operand;
    var cast := [Open, TypeName(ty), Close];
    match t
    case LeafTree(v) =>
      var s := cast + [Atom(v)] + rest;
      assert s[3..] == [Atom(v)] + rest;
      AtomReads(v, rest);
      CastReads(s, ty, v, rest);
      CastSame(ty, v);
      SumOfOne(s, v, rest);
    case Node(op, ty1, l, r) =>
      var a, b := Operand(ty, Show(l)), Operand(ty, Show(r));
      var s := cast + Show(t) + rest;
      var after := [Sign(op)] + (b + rest);
      assert Show(t) == a + [Sign(op)] + b;
      assert s[3..] == a + after;
      OperandReads(ty, l, after);
      ValueFits(l, ty);
      ValueFits(r, ty);
      CastReads(s, ty, ValueOf(l), after);
      CastSame(ty, ValueOf(l));
      OperandReads(ty, r, rest);
      BinaryReads(s, op, ty, ValueOf(l), ValueOf(r), b, rest);
  }

  lemma AtomReads(v: Value, rest: Text)
    ensures ReadCast([Atom(v)] + rest) == Some(Parse(v, rest))
  {
    assert ([Atom(v)] + rest)[1..] == rest;
  }

  lemma CastReads(s: Text, ty: Type, v: Value, rest: Text)
    requires |s| >= 3 && s[0] == Open && s[1] == TypeName(ty) && s[2] == Close
        && ReadCast(s[3..]) == Some(Parse(v, rest))
    ensures ReadCast(s) == Some(Parse(Cast(ty, v), rest))
  {
    hide ReadPrimary;
  }

  lemma CastSame(ty: Type, v: Value)
    requires Fits(v) && v.ty == ty
    ensures Cast(ty, v) == v
  {}

  lemma SumOfOne(s: Text, v: Value, rest: Text)
    requires ReadCast(s) == Some(Parse(v, rest)) && Stops(rest)
    ensures ReadSum(s) == Some(Parse(v, rest)) && ReadProduct(s) == Some(Parse(v, rest))
  {
    hide ReadCast;
    assert ReadProductRest(v, rest) == Some(Parse(v, rest));
    assert ReadSumRest(v, rest) == Some(Parse(v, rest));
    assert ReadProduct(s) == Some(Parse(v, rest));
  }

  /** An operator between a first operand already read and a second. */
  lemma BinaryReads(s: Text, op: BinOp, ty: Type, a: Value, b: Value, second: Text, rest: Text)
    requires ReadCast(s) == Some(Parse(a, [Sign(op)] + (second + rest)))
        && ReadCast(second + rest) == Some(Parse(b, rest)) && Stops(rest)
    requires Arithmetic(op) && a.ty == ty && b.ty == ty && (ty == I32 || ty == I64)
    ensures ReadSum(s) == Some(Parse(Compute(op, ty, a.bits, b.bits), rest))
  {
    hide ReadCast;
    var after := [Sign(op)] + (second + rest);
    assert after[1..] == second + rest;
    assert Combine(Sign(op), a, b) == Compute(op, ty, a.bits, b.bits);
    var v := Compute(op, ty, a.bits, b.bits);
    if op == Mul {
      assert ReadProductRest(v, rest) == Some(Parse(v, rest));
      assert ReadProductRest(a, after) == Some(Parse(v, rest));
      assert ReadProduct(s) == Some(Parse(v, rest));
      assert ReadSumRest(v, rest) == Some(Parse(v, rest));
    } else {
      SumOfOne(second + rest, b, rest);
      assert ReadSumRest(v, rest) == Some(Parse(v, rest));
      assert ReadSumRest(a, after) == Some(Parse(v, rest));
      assert ReadProductRest(a, after) == Some(Parse(a, after));
      assert ReadProduct(s) == Some(Parse(a, after));
    }
  }

  /** The whole text of an expression. */
  lemma ShowReads(t: Tree, ty: Type)
    requires Typed(t, ty)
    ensures ReadSum(Show(t)) == Some(Parse(ValueOf(t), []))
  {
    hide ReadCast, ReadSum, Operand;
    assert Show(t) + [] == Show(t);
    match t
    case LeafTree(v) =>
      AtomReads(v, []);
      assert [Atom(v)] + [] == [Atom(v)];
      SumOfOne(Show(t), v, []);
    case Node(op, ty1, l, r) =>
      var a, b := Operand(ty, Show(l)), Operand(ty, Show(r));
      var after := [Sign(op)] + (b + []);
      assert Show(t) == a + after;
      OperandReads(ty, l, after);
      ValueFits(l, ty);
      ValueFits(r, ty);
      OperandReads(ty, r, []);
      BinaryReads(Show(t), op, ty, ValueOf(l), ValueOf(r), b, []);
  }

  // ----- the mini stack -----

  /** What the mini stack holds: the texts of trees of these types with these values. */
  ghost predicate Holds(texts: seq<Text>, trees: seq<Tree>, types: seq<Type>, values: seq<Value>) {
    && |texts| == |trees| == |types| == |values|
    && forall i | 0 <= i < |texts| :: texts[i] == Show(trees[i]) && Typed(trees[i], types[i])
        && ValueOf(trees[i]) == values[i]
  }

  /** Validated items always find their operands, and end with one value. */
  lemma {:induction false} ValidEvaluates(items: seq<Item>, types: seq<Type>, stack: seq<Value>)
    requires Valid(items, types) && |stack| == |types|
    ensures Evaluate(items, stack).Some? && |Evaluate(items, stack).value| == 1
    decreases |items|
  {
    if items != [] {
      match items[0]
      case Leaf(v) => ValidEvaluates(items[1..], types + [v.ty], stack + [v]);
      case Apply(op, ty) =>
        var n := |types|;
        ValidEvaluates(items[1..], types[..n - 2] + [ty],
            stack[..n - 2] + [Compute(op, ty, stack[n - 2].bits, stack[n - 1].bits)]);
    }
  }

  /** The text written for a constant expression: read as C it is the expression's value. */
  method WriteInitExpr(items: seq<Item>) returns (text: Text)
    requires Valid(items, [])
    ensures Evaluate(items, []).Some? && |Evaluate(items, []).value| == 1
    ensures ReadSum(text) == Some(Parse(Evaluate(items, []).value[0], []))
  {
    hide ReadSum, Show, ValueOf, Typed, Combination;
    ValidEvaluates(items, [], []);
    var miniStack: seq<Text> := [];
    ghost var trees: seq<Tree> := [];
    ghost var types: seq<Type> := [];
    ghost var values: seq<Value> := [];
    var i := 0;
    assert items[0..] == items;
    while i < |items|
      invariant 0 <= i <= |items| && Valid(items[i..], types) && Holds(miniStack, trees, types, values)
      invariant Evaluate(items[i..], values) == Evaluate(items, [])
    {
      assert items[i..][1..] == items[i + 1..] && items[i..][0] == items[i];
      match items[i] {
        case Leaf(v) =>
          LeafHolds(v);
          miniStack := miniStack + [[Atom(v)]];
          trees, types, values := trees + [LeafTree(v)], types + [v.ty], values + [v];
        case Apply(op, ty) =>
          var n := |miniStack|;
          var (a, b) := (miniStack[n - 2], miniStack[n - 1]);
          NodeHolds(op, ty, trees[n - 2], trees[n - 1]);
          miniStack := miniStack[..n - 2] + [Combination(op, ty, a, b)];
          types := types[..n - 2] + [ty];
          values := values[..n - 2] + [Compute(op, ty, values[n - 2].bits, values[n - 1].bits)];
          trees := trees[..n - 2] + [Node(op, ty, trees[n - 2], trees[n - 1])];
      }
      i := i + 1;
    }
    text := miniStack[0];
    ShowReads(trees[0], types[0]);
  }

  lemma LeafHolds(v: Value)
    requires Fits(v)
    ensures Show(LeafTree(v)) == [Atom(v)] && Typed(LeafTree(v), v.ty) && ValueOf(LeafTree(v)) == v
  {}

  lemma NodeHolds(op: BinOp, ty: Type, l: Tree, r: Tree)
    requires Typed(l, ty) && Typed(r, ty) && (ty == I32 || ty == I64) && Arithmetic(op)
    ensures var t := Node(op, ty, l, r);
            && Show(t) == Combination(op, ty, Show(l), Show(r)) && Typed(t, ty)
            && ValueOf(t) == Compute(op, ty, ValueOf(l).bits, ValueOf(r).bits)
  {}
}

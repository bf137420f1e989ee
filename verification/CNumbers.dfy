/** The C expressions written for numeric instructions compute the WebAssembly operators. */
module CNumbers {
  import opened Ir
  import opened Wasm
  import opened CLang
  import opened Rotation
  import opened Lowering

  lemma SignedRange(ty: Type, x: int)
    ensures -(Modulus(ty) / 2) <= Signed(ty, x) < Modulus(ty) / 2
  {}

  lemma {:induction false} QuotientShrinks(a: nat, b: nat)
    requires b >= 1
    ensures b == 1 ==> Quotient(a, b) == a && Remainder(a, b) == 0
    ensures b >= 2 ==> 2 * Quotient(a, b) <= a
  {
    if a >= b { QuotientShrinks(a - b, b); }
  }

  /** Signed division overflows for exactly one pair of operands. */
  lemma DivOverflow(h: int, p: int, q: int)
    requires h > 0 && -h <= p < h && -h <= q < h && q != 0
    ensures TruncDiv(p, q) == h <==> p == -h && q == -1
  {
    QuotientShrinks(Abs(p), Abs(q));
  }

  lemma RemOverflow(h: int)
    requires h > 0
    ensures TruncRem(-h, -1) == 0
  {
    QuotientShrinks(h, 1);
  }

  function ToValue(ty: Type, r: Option<nat>): Option<Value> {
    match r
    case None => None
    case Some(x) => Some(Value(ty, x))
  }

  /** Trap conditions included: masks for shift counts, the two division macros. */
  lemma BinaryAgrees(s: Store, ty: Type, op: BinOp, a: CExpr, b: CExpr, x: Value, y: Value)
    requires EvalX(s, a) == Some(x) && EvalX(s, b) == Some(y)
    ensures EvalX(s, BinaryX(ty, op, a, b)) == ToValue(ty, BinResult(ty, op, x.bits, y.bits))
  {
    if op == DivS || op == RemS { DivSAgrees(s, ty, a, b, x, y); RemSAgrees(s, ty, a, b, x, y); }
    else if op in {Shl, ShrU, ShrS} { ShiftAgrees(s, ty, op, a, b, x, y); }
    else if op in {Rotl, Rotr} { RotateAgrees(s, ty, op, a, b, x, y); }
    else { UnsignedAgrees(s, ty, op, a, b, x, y); }
  }

  lemma UnsignedAgrees(s: Store, ty: Type, op: BinOp, a: CExpr, b: CExpr, x: Value, y: Value)
    requires op in {Add, Sub, Mul, DivU, RemU, And, Or, Xor}
    requires EvalX(s, a) == Some(x) && EvalX(s, b) == Some(y)
    ensures EvalX(s, BinaryX(ty, op, a, b)) == ToValue(ty, BinResult(ty, op, x.bits, y.bits))
  {
    hide Times, Quotient, Remainder, Signed, ShiftLeft, ShiftRight, TruncDiv, TruncRem, AndBits, OrBits, XorBits;
  }

  lemma ShiftAgrees(s: Store, ty: Type, op: BinOp, a: CExpr, b: CExpr, x: Value, y: Value)
    requires op in {Shl, ShrU, ShrS}
    requires EvalX(s, a) == Some(x) && EvalX(s, b) == Some(y)
    ensures EvalX(s, BinaryX(ty, op, a, b)) == ToValue(ty, BinResult(ty, op, x.bits, y.bits))
  {
    MaskAgrees(s, ty, b, y);
  }

  lemma MaskAgrees(s: Store, ty: Type, b: CExpr, y: Value)
    requires EvalX(s, b) == Some(y)
    ensures EvalX(s, MaskX(b, ShiftMask(ty))) == Some(y.(bits := y.bits % Bits(ty)))
  {}

  lemma DivSAgrees(s: Store, ty: Type, a: CExpr, b: CExpr, x: Value, y: Value)
    requires EvalX(s, a) == Some(x) && EvalX(s, b) == Some(y)
    ensures EvalX(s, DivSX(ty, a, b)) == ToValue(ty, BinResult(ty, DivS, x.bits, y.bits))
  {
    SignedRange(ty, x.bits);
    SignedRange(ty, y.bits);
    if Signed(ty, y.bits) != 0 { DivOverflow(Modulus(ty) / 2, Signed(ty, x.bits), Signed(ty, y.bits)); }
  }

  lemma RemSAgrees(s: Store, ty: Type, a: CExpr, b: CExpr, x: Value, y: Value)
    requires EvalX(s, a) == Some(x) && EvalX(s, b) == Some(y)
    ensures EvalX(s, RemSX(ty, a, b)) == ToValue(ty, BinResult(ty, RemS, x.bits, y.bits))
  {
    hide TruncRem, Signed;
    RemOverflow(Modulus(ty) / 2);
    SignedRange(ty, x.bits);
    NothingWraps(ty);
  }

  lemma NothingWraps(ty: Type)
    ensures Wrap(ty, 0) == 0
  {}

  /** The rotation macros rotate one place at a time. */
  lemma RotateAgrees(s: Store, ty: Type, op: BinOp, a: CExpr, b: CExpr, x: Value, y: Value)
    requires op in {Rotl, Rotr}
    requires EvalX(s, a) == Some(x) && EvalX(s, b) == Some(y)
    ensures EvalX(s, BinaryX(ty, op, a, b)) == ToValue(ty, BinResult(ty, op, x.bits, y.bits))
  {
    hide RotlMacro, RotrMacro, RotateLeft, RotateRight, Times, Quotient, Remainder, Signed, ShiftLeft, ShiftRight,
        TruncDiv, TruncRem, AndBits, OrBits, XorBits;
    RotlAgrees(ty, Wrap(ty, x.bits), y.bits);
    RotrAgrees(ty, Wrap(ty, x.bits), y.bits);
  }

  lemma CompareAgrees(s: Store, ty: Type, op: RelOp, a: CExpr, b: CExpr, x: Value, y: Value)
    requires EvalX(s, a) == Some(x) && EvalX(s, b) == Some(y)
    ensures EvalX(s, CompareX(ty, op, a, b)) == Some(BoolValue(RelResult(ty, op, x.bits, y.bits)))
  {
    hide EvalX, Signed;
    forall c ensures EvalX(s, CmpX(c, a, b)) == Some(Cmp(c, x.bits, y.bits)) { CmpValue(s, c, a, b, x, y); }
    forall c ensures EvalX(s, SignedCmpX(c, ty, a, b)) == Some(Cmp(c, Signed(ty, x.bits), Signed(ty, y.bits))) {
      SignedCmpValue(s, c, ty, a, b, x, y);
    }
  }

  lemma CmpValue(s: Store, op: CmpOp, a: CExpr, b: CExpr, x: Value, y: Value)
    requires EvalX(s, a) == Some(x) && EvalX(s, b) == Some(y)
    ensures EvalX(s, CmpX(op, a, b)) == Some(Cmp(op, x.bits, y.bits))
  {}

  lemma SignedCmpValue(s: Store, op: CmpOp, ty: Type, a: CExpr, b: CExpr, x: Value, y: Value)
    requires EvalX(s, a) == Some(x) && EvalX(s, b) == Some(y)
    ensures EvalX(s, SignedCmpX(op, ty, a, b)) == Some(Cmp(op, Signed(ty, x.bits), Signed(ty, y.bits)))
  {}
}

/** The operators that both sides of the lowering compute with, which are written as iteration,
    in terms of multiplication, division and single bits (section 4.3.2 of the WebAssembly
    Core Specification). */
module Arithmetic {
  import opened Ir
  import opened Numbers
  import opened Wasm
  import opened Rotation
  import opened CNumbers

  // ----- shifts -----

  lemma HalvedQuotient(x: int, p: nat)
    requires p > 0
    ensures x / 2 / p == x / (2 * p)
  {
    var (h, q, r) := (x / 2, x / 2 / p, x / 2 % p);
    var d := x / (2 * p) - q;
    assert h == p * q + r;
    assert x == 2 * p * (x / (2 * p)) + x % (2 * p);
    assert 2 * p * q == 2 * (p * q);
    assert 2 * p * d == 2 * r + x % 2 - x % (2 * p);
    MultipleAtLeast(2 * p, d);
  }

  lemma {:induction false} ShiftRightDivides(x: int, k: nat)
    ensures ShiftRight(x, k) == x / Pow2(k)
    decreases k
  {
    if k > 0 {
      ShiftRightDivides(x / 2, k - 1);
      HalvedQuotient(x, Pow2(k - 1));
    }
  }

  lemma {:induction false} UnsignedShift(x: nat, k: nat)
    ensures ShiftRightU(x, k) == ShiftRight(x, k)
    decreases k
  {
    if k > 0 { UnsignedShift(x / 2, k - 1); }
  }

  /** Addition, multiplication, unsigned division and the shifts of unsigned values. */
  lemma UnsignedMeans(ty: Type, x: nat, y: nat)
    ensures BinResult(ty, Add, x, y) == Some((x + y) % Modulus(ty))
    ensures BinResult(ty, Sub, x, y) == Some((x - y) % Modulus(ty))
    ensures BinResult(ty, Mul, x, y) == Some(x * y % Modulus(ty))
    ensures BinResult(ty, DivU, x, y) == if y == 0 then None else Some(x / y)
    ensures BinResult(ty, RemU, x, y) == if y == 0 then None else Some(x % y)
    ensures var k := y % Bits(ty);
            && BinResult(ty, Shl, x, y) == Some(x * Pow2(k) % Modulus(ty))
            && BinResult(ty, ShrU, x, y) == Some(x / Pow2(k))
  {
    var k := y % Bits(ty);
    hide Times, Quotient, Remainder, ShiftLeft, ShiftRight, ShiftRightU, Pow2;
    TimesIsProduct(x, y);
    if y != 0 { QuotientIsDivision(x, y); }
    ShiftLeftIs(x, k);
    UnsignedShift(x, k);
    ShiftRightDivides(x, k);
  }

  // ----- signed values -----

  /** The bits `x` stand for `p` in two's complement: the one number in range that is congruent. */
  predicate Represents(ty: Type, x: int, p: int) {
    -(Modulus(ty) / 2) <= p < Modulus(ty) / 2 && (p - x) % Modulus(ty) == 0
  }

  lemma SignedIs(ty: Type, x: int, p: int)
    ensures Represents(ty, x, p) <==> p == Signed(ty, x)
  {
    var m := Modulus(ty);
    var r := x % m;
    assert m % 2 == 0;
    hide Modulus;
    Congruent(p, x, m);
    SmallNumber(r, m);
    if Represents(ty, x, p) {
      SmallResidue(p, r, m);
    } else if p == Signed(ty, x) && p < 0 {
      ResidueOf(m, 0, m - r, p);
    }
  }

  lemma Congruent(a: int, b: int, m: nat)
    requires m > 0
    ensures (a - b) % m == 0 <==> a % m == b % m
  {
    var d := a / m - b / m;
    assert a - b == m * d + (a % m - b % m);
    var r := a % m - b % m;
    if r == 0 {
      ResidueOf(m, d, 0, m * d);
    } else if r > 0 {
      ResidueOf(m, d + 1, m - r, m * (d + 1) - (m - r));
      assert m * (d + 1) == m * d + m;
    } else {
      ResidueOf(m, d, -r, m * d + r);
    }
  }

  lemma Signs(a: int, b: int)
    ensures (-a) * b == -(a * b) == a * (-b) && (-a) * (-b) == a * b
  {}

  /** Division toward zero: the remainder is smaller than the divisor and has the sign of the
      dividend. */
  lemma TruncMeans(p: int, q: int)
    requires q != 0
    ensures var (r, size) := (TruncRem(p, q), Abs(q) as int);
            p == TruncDiv(p, q) * q + r && -size < r < size && (r < 0 ==> p < 0) && (r > 0 ==> p > 0)
  {
    QuotientRemainder(Abs(p), Abs(q));
    Signs(Quotient(Abs(p), Abs(q)), Abs(q));
  }

  /** The signed operators work on the numbers that the operands stand for. Division traps on a
      zero divisor and on the one overflow, the remainder on a zero divisor only. */
  lemma SignedMeans(ty: Type, x: nat, y: nat, p: int, q: int)
    requires Represents(ty, x, p) && Represents(ty, y, q)
    ensures BinResult(ty, DivS, x, y)
        == if q == 0 || (p == -(Modulus(ty) / 2) && q == -1) then None else Some(TruncDiv(p, q) % Modulus(ty))
    ensures BinResult(ty, RemS, x, y) == if q == 0 then None else Some(TruncRem(p, q) % Modulus(ty))
    ensures BinResult(ty, ShrS, x, y) == Some(p / Pow2(y % Bits(ty)) % Modulus(ty))
  {
    hide Signed, TruncDiv, TruncRem, ShiftRight, Pow2;
    SignedIs(ty, x, p);
    SignedIs(ty, y, q);
    if q != 0 { DivOverflow(Modulus(ty) / 2, p, q); }
    ShiftRightDivides(p, y % Bits(ty));
  }

  /** When a relation holds, of the bits or of the numbers they stand for. */
  predicate Holds(op: RelOp, x: nat, y: nat, p: int, q: int) {
    match op
    case Eq => x == y
    case Ne => x != y
    case LtU => x < y
    case GtU => y < x
    case LeU => !(y < x)
    case GeU => !(x < y)
    case LtS => p < q
    case GtS => q < p
    case LeS => !(q < p)
    case GeS => !(p < q)
  }

  /** A comparison takes its operands off the stack and leaves 1 or 0. */
  lemma CompareMeans(env: Env, host: Host, ty: Type, op: RelOp, m: Machine, below: seq<Value>, x: nat, y: nat, p: int,
      q: int)
    requires m.stack == below + [Value(ty, x)] + [Value(ty, y)] && Represents(ty, x, p) && Represents(ty, y, q)
    ensures EvalInstr(env, host, Compare(ty, op), m)
        == Next(m.(stack := below + [Value(I32, if Holds(op, x, y, p, q) then 1 else 0)]))
  {
    hide Signed;
    SignedIs(ty, x, p);
    SignedIs(ty, y, q);
    assert DropN(m.stack, 2) == below;
  }

  lemma EqzMeans(env: Env, host: Host, ty: Type, m: Machine, below: seq<Value>, x: nat)
    requires m.stack == below + [Value(ty, x)]
    ensures EvalInstr(env, host, Eqz(ty), m) == Next(m.(stack := below + [Value(I32, if x == 0 then 1 else 0)]))
  {
    assert DropN(m.stack, 1) == below;
  }

  // ----- memory -----

  lemma BytesQuotient(x: nat, p: nat)
    requires p > 0
    ensures x / 256 / p == x / (256 * p)
  {
    var (h, q, r) := (x / 256, x / 256 / p, x / 256 % p);
    var d := x / (256 * p) - q;
    assert h == p * q + r;
    assert x == 256 * p * (x / (256 * p)) + x % (256 * p);
    assert 256 * p * q == 256 * (p * q);
    assert 256 * p * d == 256 * r + x % 256 - x % (256 * p);
    MultipleAtLeast(256 * p, d);
  }

  /** Byte `k` of a number, counted from the least significant one. */
  function Byte(x: nat, k: nat): nat { x / Pow2(8 * k) % 256 }

  lemma ByteHigher(x: nat, k: nat)
    requires k > 0
    ensures Byte(x, k) == Byte(x / 256, k - 1)
  {
    hide Pow2;
    Pow2Eight(8 * (k - 1));
    BytesQuotient(x, Pow2(8 * (k - 1)));
  }

  lemma ByteLowest(x: nat)
    ensures Byte(x, 0) == x % 256
  {}

  lemma {:induction false} ToBytesMeans(x: nat, n: nat, k: nat)
    requires k < n
    ensures |ToBytes(x, n)| == n && ToBytes(x, n)[k] == Byte(x, k)
    decreases n
  {
    hide Byte;
    if k > 0 {
      ToBytesMeans(x / 256, n - 1, k - 1);
      ByteHigher(x, k);
    } else {
      ByteLowest(x);
      if n > 1 { ToBytesMeans(x / 256, n - 1, 0); }
    }
  }

  /** A store puts the bytes of its operand at the address and behind it, the least significant
      one first, and nothing anywhere else; it fails exactly beyond the end. */
  lemma StoreMeans(mem: seq<nat>, acc: Access, ea: nat, x: nat, j: nat)
    ensures WriteMem(mem, acc, ea, x).None? <==> ea + acc.bytes > |mem|
    ensures WriteMem(mem, acc, ea, x).Some? && j < |mem| ==>
              var r := WriteMem(mem, acc, ea, x).value;
              |r| == |mem| && r[j] == if ea <= j < ea + acc.bytes then Byte(x, j - ea) else mem[j]
  {
    hide ToBytes, Byte;
    ToBytesLength(x, acc.bytes);
    if ea <= j < ea + acc.bytes { ToBytesMeans(x, acc.bytes, j - ea); }
  }

  lemma {:induction false} ToBytesLength(x: nat, n: nat)
    ensures |ToBytes(x, n)| == n
    decreases n
  {
    if n > 0 { ToBytesLength(x / 256, n - 1); }
  }

  /** The number with these bytes. */
  lemma {:induction false} LittleEndianMeans(bytes: seq<nat>, x: nat)
    requires x < Pow2(8 * |bytes|) && forall k | 0 <= k < |bytes| :: bytes[k] == Byte(x, k)
    ensures LittleEndian(bytes) == x
    decreases |bytes|
  {
    hide Pow2, Byte;
    if bytes == [] {
      assert Pow2(0) == 1 by { NoBits(); }
    } else {
      Pow2Eight(8 * (|bytes| - 1));
      ByteLowest(x);
      forall k | 0 <= k < |bytes[1..]| ensures bytes[1..][k] == Byte(x / 256, k) { ByteHigher(x, k + 1); }
      LittleEndianMeans(bytes[1..], x / 256);
    }
  }

  lemma NoBits()
    ensures Pow2(0) == 1
  {}

  /** A load yields the number with the bytes at the address; a signed one extends its sign: the
      result is congruent to the number that those bits stand for. */
  lemma LoadMeans(mem: seq<nat>, acc: Access, ea: nat, raw: nat, v: int)
    requires 0 < acc.bytes && 8 * acc.bytes <= Bits(acc.ty) && raw < Pow2(8 * acc.bytes)
    requires ea + acc.bytes <= |mem| && forall k | 0 <= k < acc.bytes :: mem[ea + k] == Byte(raw, k)
    requires acc.signed ==>
        -(Pow2(8 * acc.bytes) / 2) <= v < Pow2(8 * acc.bytes) / 2 && (v - raw) % Pow2(8 * acc.bytes) == 0
    ensures ReadMem(mem, acc, ea) == Some(Value(acc.ty, if acc.signed then v % Modulus(acc.ty) else raw))
  {
    hide Pow2, Byte, LittleEndian;
    var p := Pow2(8 * acc.bytes);
    LittleEndianMeans(mem[ea..ea + acc.bytes], raw);
    PowModulus(acc.ty);
    PowAtMost(8 * acc.bytes, Bits(acc.ty));
    if acc.signed {
      assert p % 2 == 0 by { EvenPower(8 * acc.bytes); }
      Congruent(v, raw, p);
      SmallResidue(v, raw, p);
    }
  }

  lemma EvenPower(k: nat)
    requires k > 0
    ensures Pow2(k) % 2 == 0
  {}

  lemma {:induction false} PowAtMost(a: nat, b: nat)
    requires a <= b
    ensures Pow2(a) <= Pow2(b)
    decreases b - a
  {
    if a < b { PowAtMost(a, b - 1); }
  }

  lemma SmallResidue(v: int, raw: nat, p: nat)
    requires p > 0 && raw < p && -(p / 2) <= v < p / 2 && v % p == raw % p && p % 2 == 0
    ensures v == if raw >= p / 2 then raw - p else raw
  {
    if v < 0 { ResidueOf(p, 0, -v, v); } else { SmallNumber(v, p); }
    SmallNumber(raw, p);
  }

  lemma SmallNumber(x: nat, p: nat)
    requires x < p
    ensures x % p == x
  {}

  /** Nothing can be loaded beyond the end. */
  lemma LoadTraps(mem: seq<nat>, acc: Access, ea: nat)
    ensures ReadMem(mem, acc, ea).None? <==> ea + acc.bytes > |mem|
  {}

  /** What was stored is loaded again, cut to the width of the access. */
  lemma LoadStored(mem: seq<nat>, acc: Access, ea: nat, x: nat)
    requires 0 < acc.bytes && 8 * acc.bytes <= Bits(acc.ty) && !acc.signed && ea + acc.bytes <= |mem|
    ensures ReadMem(WriteMem(mem, acc, ea, x).value, acc, ea) == Some(Value(acc.ty, x % Pow2(8 * acc.bytes)))
  {
    hide Pow2, Byte, ReadMem, WriteMem;
    var raw := x % Pow2(8 * acc.bytes);
    StoreMeans(mem, acc, ea, x, 0);
    var r := WriteMem(mem, acc, ea, x).value;
    forall k | 0 <= k < acc.bytes ensures r[ea + k] == Byte(raw, k) {
      StoreMeans(mem, acc, ea, x, ea + k);
      ByteOfRest(x, acc.bytes, k);
    }
    LoadMeans(r, acc, ea, raw, 0);
  }

  /** Cutting a number to `n` bytes leaves these bytes as they are. */
  lemma {:induction false} ByteOfRest(x: nat, n: nat, k: nat)
    requires k < n
    ensures Byte(x % Pow2(8 * n), k) == Byte(x, k)
    decreases n
  {
    hide Pow2, Byte;
    Pow2Eight(8 * (n - 1));
    RestOfBytes(x, Pow2(8 * (n - 1)));
    if k == 0 {
      ByteLowest(x);
      ByteLowest(x % Pow2(8 * n));
    } else {
      ByteHigher(x, k);
      ByteHigher(x % Pow2(8 * n), k);
      ByteOfRest(x / 256, n - 1, k - 1);
    }
  }

  lemma RestOfBytes(x: nat, p: nat)
    requires p > 0
    ensures x % (256 * p) % 256 == x % 256 && x % (256 * p) / 256 == x / 256 % p
  {
    BytesQuotient(x, p);
    var q := x / (256 * p);
    assert x == 256 * p * q + x % (256 * p);
    assert 256 * p * q == 256 * (p * q);
    var r := x % (256 * p);
    assert x % 256 == r % 256 && x / 256 == p * q + r / 256;
    assert x / 256 == p * (x / 256 / p) + x / 256 % p;
  }

  // ----- single bits -----

  predicate Bit(x: nat, k: nat) { x / Pow2(k) % 2 == 1 }

  lemma LowBit(x: nat)
    ensures Bit(x, 0) <==> x % 2 == 1
  {}

  lemma BitHalved(x: nat, k: nat)
    requires k > 0
    ensures Bit(x, k) <==> Bit(x / 2, k - 1)
  {
    HalvedQuotient(x, Pow2(k - 1));
  }

  /** The bitwise operators, bit by bit. */
  lemma {:induction false} BitwiseMeans(x: nat, y: nat, k: nat)
    ensures Bit(AndBits(x, y), k) <==> Bit(x, k) && Bit(y, k)
    ensures Bit(OrBits(x, y), k) <==> Bit(x, k) || Bit(y, k)
    ensures Bit(XorBits(x, y), k) <==> (Bit(x, k) <==> !Bit(y, k))
    decreases k
  {
    hide Bit, AndBits, OrBits, XorBits;
    Halves(x, y);
    if k == 0 {
      LowBit(x);
      LowBit(y);
      LowBit(AndBits(x, y));
      LowBit(OrBits(x, y));
      LowBit(XorBits(x, y));
    } else {
      BitwiseMeans(x / 2, y / 2, k - 1);
      BitHalved(x, k);
      BitHalved(y, k);
      BitHalved(AndBits(x, y), k);
      BitHalved(OrBits(x, y), k);
      BitHalved(XorBits(x, y), k);
    }
  }

  lemma Halves(x: nat, y: nat)
    ensures AndBits(x, y) / 2 == AndBits(x / 2, y / 2) && OrBits(x, y) / 2 == OrBits(x / 2, y / 2)
    ensures XorBits(x, y) / 2 == XorBits(x / 2, y / 2)
    ensures AndBits(x, y) % 2 == 1 <==> x % 2 == 1 && y % 2 == 1
    ensures OrBits(x, y) % 2 == 1 <==> x % 2 == 1 || y % 2 == 1
    ensures XorBits(x, y) % 2 == 1 <==> x % 2 != y % 2
  {}
}

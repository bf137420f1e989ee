/** The rotation macros, which put two shifts together, rotate one place at a time. */
module Rotation {
  import opened Ir
  import opened Numbers
  import opened Wasm
  import opened CLang

  // ----- products -----

  lemma {:induction false} ProductGrows(a: nat, b: nat, q: nat)
    requires a <= b
    ensures a * q <= b * q
    decreases b - a
  {
    if a < b {
      ProductGrows(a + 1, b, q);
      assert (a + 1) * q == a * q + q;
    }
  }

  /** The number with the digits `b` and `r` to the base `q`. */
  function Digits(b: nat, q: nat, r: nat): nat { b * q + r }

  lemma DigitsBelow(b: nat, h: nat, q: nat, r: nat)
    requires b < h && r < q
    ensures Digits(b, q, r) < Digits(h, q, 0)
  {
    ProductGrows(b + 1, h, q);
    assert (b + 1) * q == b * q + q;
  }

  /** A number has one quotient and one remainder. */
  lemma DigitsUnique(x: nat, q: nat, b: nat, r: nat)
    requires q > 0 && x == b * q + r && r < q
    ensures x / q == b && x % q == r
  {
    DivisionUnique(x, q, b, r);
  }

  // ----- powers and shifts -----

  lemma {:induction false} PowAdd(a: nat, b: nat)
    ensures Pow2(a) * Pow2(b) == Pow2(a + b)
    decreases a
  {
    if a > 0 {
      PowAdd(a - 1, b);
      assert 2 * Pow2(a - 1) * Pow2(b) == 2 * (Pow2(a - 1) * Pow2(b));
    }
  }

  lemma PowModulus(ty: Type)
    ensures Pow2(Bits(ty)) == Modulus(ty)
  {
    assert Pow2(4) == 16;
    Pow2Four(8); Pow2Four(12); Pow2Four(16); Pow2Four(20); Pow2Four(24); Pow2Four(28); Pow2Four(32);
    PowAdd(32, 32);
  }

  lemma {:induction false} ShiftLeftIs(x: nat, k: nat)
    ensures ShiftLeft(x, k) == x * Pow2(k)
    decreases k
  {
    if k > 0 {
      ShiftLeftIs(2 * x, k - 1);
      Double(x, Pow2(k - 1));
    }
  }

  lemma Halved(p: nat, b: nat)
    ensures (2 * p + b) / 2 == p + b / 2
  {}

  lemma {:induction false} ShiftRightIs(r: nat, b: nat, k: nat)
    requires b < Pow2(k)
    ensures ShiftRightU(r * Pow2(k) + b, k) == r
    decreases k
  {
    if k > 0 {
      var p := r * Pow2(k - 1);
      Double(r, Pow2(k - 1));
      Halved(p, b);
      ShiftRightIs(r, b / 2, k - 1);
    }
  }

  /** A left shift keeps the lower bits. */
  lemma ShiftKeeps(ty: Type, b: nat, r: nat, k: nat)
    requires k <= Bits(ty) && r < Pow2(Bits(ty) - k)
    ensures Wrap(ty, ShiftLeft(b * Pow2(Bits(ty) - k) + r, k)) == r * Pow2(k)
  {
    hide Pow2, ShiftLeft, Bits;
    var q, p := Pow2(Bits(ty) - k), Pow2(k);
    ShiftLeftIs(b * q + r, k);
    PowAdd(k, Bits(ty) - k);
    PowModulus(ty);
    assert (b * q + r) * p == b * (p * q) + r * p by { Regroup(b, q, r, p); }
    DigitsBelow(r, q, p, 0);
    assert Digits(r, p, 0) == r * p && Digits(q, p, 0) == p * q;
    DigitsUnique((b * q + r) * p, p * q, b, r * p);
  }

  lemma Regroup(b: nat, q: nat, r: nat, p: nat)
    ensures (b * q + r) * p == b * (p * q) + r * p
  {
    assert b * q * p == b * (p * q);
  }

  // ----- disjoint bits -----

  lemma {:induction false} OrSame(x: nat)
    ensures OrBits(x, 0) == x && OrBits(x, x) == x
    decreases x
  {
    if x > 0 { OrSame(x / 2); }
  }

  lemma {:induction false} OrCommutes(x: nat, y: nat)
    ensures OrBits(x, y) == OrBits(y, x)
    decreases x + y
  {
    if x == 0 || y == 0 { OrSame(x + y); } else { OrCommutes(x / 2, y / 2); }
  }

  /** Bits in different places are added up. */
  lemma {:induction false} OrDisjoint(r: nat, b: nat, k: nat)
    requires b < Pow2(k)
    ensures OrBits(r * Pow2(k), b) == r * Pow2(k) + b
    decreases k
  {
    var x := r * Pow2(k);
    if k == 0 {
      OrSame(x);
    } else {
      assert x == 2 * (r * Pow2(k - 1));
      OrDisjoint(r, b / 2, k - 1);
    }
  }

  // ----- rotations -----

  /** The upper `k` bits `b` go behind the others. */
  lemma {:induction false} RotateLeftIs(ty: Type, k: nat, q: nat, b: nat, r: nat)
    requires Digits(Pow2(k), q, 0) == Modulus(ty) && r < q && b < Pow2(k)
    ensures RotateLeft(ty, Digits(b, q, r), k) == Digits(r, Pow2(k), b)
    decreases k
  {
    if k > 0 {
      var h := Pow2(k - 1);
      assert Pow2(k) == 2 * h;
      hide RotateLeft, Modulus, Pow2, Digits;
      var t: nat, b1: nat := if b >= h then 1 else 0, if b >= h then b - h else b;
      LeftStep(h, q, b, r, t, b1);
      DigitsBelow(b1, h, 2 * q, 2 * r);
      RotateOnce(ty, Digits(b, q, r), k, t, Digits(b1, 2 * q, 2 * r));
      RotateLeftIs(ty, k - 1, 2 * q, b1, 2 * r + t);
    }
  }

  lemma RotateOnce(ty: Type, x: nat, k: nat, t: nat, y: nat)
    requires k > 0 && 2 * x == y + (if t == 1 then Modulus(ty) else 0) && y < Modulus(ty) && t <= 1
    ensures RotateLeft(ty, x, k) == RotateLeft(ty, y + t, k - 1)
  {
    DigitsUnique(2 * x, Modulus(ty), t, y);
  }

  lemma LeftStep(h: nat, q: nat, b: nat, r: nat, t: nat, b1: nat)
    requires t <= 1 && b == (if t == 1 then h else 0) + b1
    ensures Digits(h, 2 * q, 0) == Digits(2 * h, q, 0)
    ensures 2 * Digits(b, q, r) == Digits(b1, 2 * q, 2 * r) + if t == 1 then Digits(2 * h, q, 0) else 0
    ensures Digits(b1, 2 * q, 2 * r) + t == Digits(b1, 2 * q, 2 * r + t)
    ensures Digits(2 * r + t, h, b1) == Digits(r, 2 * h, b)
  {}

  /** The lower `k` bits `b` go in front of the others. */
  lemma {:induction false} RotateRightIs(ty: Type, k: nat, q: nat, b: nat, r: nat)
    requires Digits(Pow2(k), q, 0) == Modulus(ty) && r < q && b < Pow2(k)
    ensures RotateRight(ty, Digits(r, Pow2(k), b), k) == Digits(b, q, r)
    decreases k
  {
    if k > 0 {
      var h := Pow2(k - 1);
      assert Pow2(k) == 2 * h;
      hide RotateRight, Modulus, Pow2, Digits;
      var t: nat, b1: nat := b % 2, b / 2;
      var r1 := if t == 1 then r + q else r;
      RightStep(h, q, b, r, t, b1, r1);
      RotateBack(ty, Digits(r, 2 * h, b), k, t, Digits(r, h, b1));
      RotateRightIs(ty, k - 1, 2 * q, b1, r1);
    }
  }

  lemma RotateBack(ty: Type, x: nat, k: nat, t: nat, y: nat)
    requires k > 0 && x == 2 * y + t && t <= 1
    ensures RotateRight(ty, x, k) == RotateRight(ty, y + if t == 1 then Modulus(ty) / 2 else 0, k - 1)
  {}

  lemma RightStep(h: nat, q: nat, b: nat, r: nat, t: nat, b1: nat, r1: nat)
    requires t <= 1 && b == 2 * b1 + t && r1 == if t == 1 then r + q else r
    ensures Digits(h, 2 * q, 0) == Digits(2 * h, q, 0)
    ensures Digits(r, 2 * h, b) == 2 * Digits(r, h, b1) + t
    ensures Digits(r1, h, b1) == Digits(r, h, b1) + if t == 1 then Digits(2 * h, q, 0) / 2 else 0
    ensures Digits(b1, 2 * q, r1) == Digits(b, q, r)
  {
    Double(h, q);
    Double(r, h);
    Double(b1, q);
    if t == 1 {
      assert (r + q) * h == r * h + h * q;
      assert (2 * b1 + 1) * q == 2 * b1 * q + q;
    }
  }

  lemma Double(a: nat, b: nat)
    ensures a * (2 * b) == 2 * (a * b) && 2 * a * b == 2 * (a * b)
  {}

  // ----- the macros -----

  lemma OtherCountIs(ty: Type, y: nat)
    ensures OtherCount(ty, y) == if y % Bits(ty) == 0 then 0 else Bits(ty) - y % Bits(ty)
  {
    var n, m := Bits(ty), Modulus(ty);
    assert m % n == 0;
    var z := n - y;
    assert z == m * (z / m) + z % m;
    assert m == n * (m / n);
    assert z % m == z - n * (m / n * (z / m)) by { assert n * (m / n) * (z / m) == n * (m / n * (z / m)); }
    var k := y % n;
    assert y == n * (y / n) + k;
    var c := 1 - y / n - m / n * (z / m);
    assert z % m == n * c - k by {
      assert n * (1 - y / n - m / n * (z / m)) == n - n * (y / n) - n * (m / n * (z / m));
    }
    ResidueOf(n, c, k, z % m);
  }

  lemma ResidueOf(n: int, c: int, k: nat, v: int)
    requires n > 0 && k < n && v == n * c - k
    ensures v % n == if k == 0 then 0 else n - k
  {
    if k == 0 { DigitsUniqueInt(v, n, c, 0); } else { DigitsUniqueInt(v, n, c - 1, n - k); }
  }

  lemma DigitsUniqueInt(x: int, n: nat, b: int, r: nat)
    requires n > 0 && x == n * b + r && r < n
    ensures x % n == r
  {
    var d := x / n - b;
    assert x == n * (x / n) + x % n;
    assert n * d == r - x % n;
    MultipleAtLeast(n, d);
  }

  /** `x` as its upper `k` bits and its lower ones. */
  lemma SplitBits(ty: Type, x: nat, k: nat) returns (b: nat, r: nat)
    requires x < Modulus(ty) && k <= Bits(ty)
    ensures var q := Pow2(Bits(ty) - k);
            Pow2(k) * q == Modulus(ty) && x == b * q + r && r < q && b < Pow2(k)
  {
    hide Pow2, Bits;
    var q := Pow2(Bits(ty) - k);
    PowAdd(k, Bits(ty) - k);
    PowModulus(ty);
    b, r := x / q, x % q;
    if b >= Pow2(k) { ProductGrows(Pow2(k), b, q); }
  }

  lemma RotlAgrees(ty: Type, x: nat, y: nat)
    requires x < Modulus(ty)
    ensures RotlMacro(ty, x, y) == RotateLeft(ty, x, y % Bits(ty))
  {
    hide RotateLeft, ShiftLeft, ShiftRightU, OrBits, Pow2, OtherCount;
    var k := y % Bits(ty);
    OtherCountIs(ty, y);
    if k == 0 {
      OrSame(x);
      RotateNothing(ty, x);
    } else {
      var b, r := SplitBits(ty, x, k);
      RotateLeftIs(ty, k, Pow2(Bits(ty) - k), b, r);
      ShiftKeeps(ty, b, r, k);
      ShiftRightIs(b, r, Bits(ty) - k);
      OrDisjoint(r, b, k);
    }
  }

  lemma RotrAgrees(ty: Type, x: nat, y: nat)
    requires x < Modulus(ty)
    ensures RotrMacro(ty, x, y) == RotateRight(ty, x, y % Bits(ty))
  {
    hide RotateRight, ShiftLeft, ShiftRightU, OrBits, Pow2, OtherCount;
    var k := y % Bits(ty);
    OtherCountIs(ty, y);
    if k == 0 {
      OrSame(x);
      RotateNothing(ty, x);
    } else {
      var j := Bits(ty) - k;
      var r, b := SplitBits(ty, x, j);
      RotateRightIs(ty, k, Pow2(j), b, r);
      ShiftRightIs(r, b, k);
      ShiftKeeps(ty, r, b, j);
      OrDisjoint(b, r, j);
      OrCommutes(r, b * Pow2(j));
    }
  }

  lemma RotateNothing(ty: Type, x: nat)
    requires x < Modulus(ty)
    ensures RotateLeft(ty, x, 0) == x == RotateRight(ty, x, 0)
    ensures Wrap(ty, ShiftLeft(x, 0)) == x == ShiftRightU(x, 0)
  {}
}

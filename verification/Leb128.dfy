/** LEB128 integers: the writers' loops, the fixed five-byte forms, the readers' branch
    decoders, and the grammar of section 5.2.2 of the WebAssembly Core Specification. */
module Leb128 {
  import opened Ir
  import opened Numbers

  type byte = b: int | 0 <= b < 256

  const TWO_TO_31: int := 0x8000_0000
  const TWO_TO_32: int := 0x1_0000_0000
  const TWO_TO_63: int := 0x8000_0000_0000_0000
  const TWO_TO_64: int := 0x1_0000_0000_0000_0000

  lemma Pow2Values()
    ensures Pow2(0) == 1 && Pow2(1) == 2 && Pow2(3) == 8 && Pow2(4) == 16 && Pow2(6) == 64 && Pow2(7) == 128
    ensures Pow2(31) == TWO_TO_31 && Pow2(32) == TWO_TO_32 && Pow2(63) == TWO_TO_63 && Pow2(64) == TWO_TO_64
  {
    assert Pow2(8) == 256;
    assert Pow2(16) == 0x1_0000;
    assert Pow2(24) == 0x100_0000;
    assert Pow2(31) == TWO_TO_31;
    assert Pow2(40) == 0x100_0000_0000;
    assert Pow2(48) == 0x1_0000_0000_0000;
    assert Pow2(56) == 0x100_0000_0000_0000;
    assert Pow2(63) == TWO_TO_63;
  }

  // ----- the grammar -----

  /** A value, and the position after it. */
  datatype Parsed = Parsed(value: int, next: nat)

  /** uN: an unsigned integer of `n` bits at position `i`. */
  function GrammarU(n: nat, p: seq<byte>, i: nat): Option<Parsed>
    decreases n
  {
    if i >= |p| then None
    else if p[i] < 128 then (if p[i] < Pow2(n) then Some(Parsed(p[i], i + 1)) else None)
    else if n <= 7 then None
    else match GrammarU(n - 7, p, i + 1)
         case None => None
         case Some(r) => Some(Parsed(128 * r.value + (p[i] - 128), r.next))
  }

  /** sN: a signed integer of `n` bits at position `i`. */
  function GrammarS(n: nat, p: seq<byte>, i: nat): Option<Parsed>
    requires n > 0
    decreases n
  {
    if i >= |p| then None
    else if p[i] < 64 then (if p[i] < Pow2(n - 1) then Some(Parsed(p[i], i + 1)) else None)
    else if p[i] < 128 then (if p[i] >= 128 - Pow2(n - 1) then Some(Parsed((p[i] as int) - 128, i + 1)) else None)
    else if n <= 7 then None
    else match GrammarS(n - 7, p, i + 1)
         case None => None
         case Some(r) => Some(Parsed(128 * r.value + (p[i] - 128), r.next))
  }

  // ----- writers -----

  /** The bytes of the unsigned loop. */
  function EncodeU(v: nat): (s: seq<byte>)
    ensures |s| >= 1
  {
    if v < 128 then [v] else [v % 128 + 128] + EncodeU(v / 128)
  }

  /** The last byte of the signed form: what remains is all copies of its sign bit. */
  predicate LastS(v: int) { -64 <= v < 64 }

  function EncodeS(v: int): (s: seq<byte>)
    ensures |s| >= 1
    decreases if v < 0 then -v else v
  {
    if LastS(v) then [v % 128] else [v % 128 + 128] + EncodeS(v / 128)
  }

  function FixedU32(v: nat): (b: seq<byte>)
    ensures |b| == 5
  {
    [v % 128 + 128, v / 0x80 % 128 + 128, v / 0x4000 % 128 + 128, v / 0x20_0000 % 128 + 128, v / 0x1000_0000 % 16]
  }

  /** The fixed form of an unsigned reading `v` of a signed 32-bit value. */
  function FixedS32(v: nat): (b: seq<byte>)
    ensures |b| == 5
  {
    var last := v / 0x1000_0000 % 16;
    FixedU32(v)[..4] + [if v >= TWO_TO_31 then last + 0x70 else last]
  }

  /** LEB128_LOOP_UNTIL(value == 0) into a buffer. */
  method LoopU(v: nat, data: array<byte>) returns (length: nat)
    requires v < Pow2(7 * data.Length) && data.Length > 0
    modifies data
    ensures length <= data.Length && data[..length] == EncodeU(v)
  {
    length := 0;
    var value := v;
    while true
      invariant 0 <= value && length < data.Length && value < Pow2(7 * (data.Length - length))
      invariant EncodeU(v) == data[..length] + EncodeU(value)
      decreases value
    {
      var low := value % 128;
      value := value / 128;
      Pow2Group(data.Length - length);
      assert Pow2(0) == 1;
      if value == 0 {
        data[length] := low;
        length := length + 1;
        break;
      } else {
        data[length] := low + 128;
        length := length + 1;
      }
    }
  }

  lemma Pow2Group(k: nat)
    requires k > 0
    ensures Pow2(7 * k) == 128 * Pow2(7 * (k - 1))
  {
    hide Pow2;
    Pow2Seven(7 * (k - 1));
  }

  /** In range for `k` groups of seven bits. */
  ghost predicate FitsS(v: int, k: int) { k > 0 && -Pow2(7 * k - 1) <= v < Pow2(7 * k - 1) }

  /** The low seven bits; what an arithmetic shift by seven leaves. */
  function LowGroup(v: int): (b: byte)
    ensures b < 128
  {
    v % 128
  }

  function Above(v: int): int { v / 128 }

  /** Bit 6, the sign of a seven-bit group. */
  predicate SignBit(b: byte) { b / 64 % 2 == 1 }

  /** The signed loops: negative values end at -1 and a set sign bit, others at 0 and a clear one. */
  method LoopS(v: int, data: array<byte>) returns (length: nat)
    requires data.Length > 0 && -Pow2(7 * data.Length - 1) <= v < Pow2(7 * data.Length - 1)
    modifies data
    ensures length <= data.Length && data[..length] == EncodeS(v)
  {
    hide LastS, EncodeS, SignBit, FitsS, LowGroup, Above, Pow2;
    length := 0;
    var value := v;
    assert FitsS(value, data.Length) by { FitsIs(v, data.Length); }
    while true
      invariant length < data.Length && (value < 0 <==> v < 0)
      invariant FitsS(value, data.Length - length)
      invariant EncodeS(v) == data[..length] + EncodeS(value)
      decreases data.Length - length
    {
      ghost var was, done := value, data[..length];
      var low := LowGroup(value);
      value := Above(value);
      var sign := SignBit(low);
      LastTest(was);
      if if v < 0 then value == -1 && sign else value == 0 && !sign {
        data[length] := low;
        length := length + 1;
        assert data[..length] == done + [low];
        break;
      } else {
        StillInRange(data.Length - length, was);
        data[length] := low + 128;
        length := length + 1;
        assert data[..length] == done + [low + 128];
        assert done + ([low + 128] + EncodeS(value)) == data[..length] + EncodeS(value);
      }
    }
  }

  lemma FitsIs(v: int, k: nat)
    requires k > 0 && -Pow2(7 * k - 1) <= v < Pow2(7 * k - 1)
    ensures FitsS(v, k)
  {}

  /** The loop's two end conditions say that nothing but sign bits remains. */
  lemma LastTest(v: int)
    ensures var (low, rest) := (LowGroup(v), Above(v));
            var sign := SignBit(low);
            && (LastS(v) <==> if v < 0 then rest == -1 && sign else rest == 0 && !sign)
            && EncodeS(v) == (if LastS(v) then [low] else [low + 128] + EncodeS(rest))
            && (rest < 0 <==> v < 0)
  {}

  lemma StillInRange(k: nat, v: int)
    requires k > 0 && FitsS(v, k) && !LastS(v)
    ensures k > 1 && FitsS(Above(v), k - 1)
  {
    assert Pow2(6) == 64 by { Pow2Values(); }
    if k > 1 {
      assert Pow2(7 * k - 1) == 2 * Pow2(7 * k - 2) == 4 * Pow2(7 * k - 3) == 8 * Pow2(7 * k - 4);
      assert Pow2(7 * k - 4) == 2 * Pow2(7 * k - 5) == 4 * Pow2(7 * k - 6) == 8 * Pow2(7 * k - 7)
          == 16 * Pow2(7 * k - 8);
    }
  }

  method U32Leb128Length(v: nat) returns (size: nat)
    requires v < TWO_TO_32
    ensures size == |EncodeU(v)|
  {
    size := 0;
    var value := v;
    while true
      invariant |EncodeU(v)| == size + |EncodeU(value)|
      decreases value
    {
      value := value / 128;
      size := size + 1;
      if value == 0 { break; }
    }
  }

  // ----- readers -----

  /** BYTE_AT: the seven payload bits of a byte. */
  function Payload(p: seq<byte>, i: nat): nat { if i < |p| then p[i] % 128 else 0 }

  /** LEB128_k: the payloads of `k` bytes from `i`, whose bit fields do not overlap. */
  function Leb(p: seq<byte>, i: nat, k: nat): nat
    decreases k
  {
    if k == 0 then 0 else Payload(p, i) + 128 * Leb(p, i + 1, k - 1)
  }

  /** SIGN_EXTEND from bit 7k - 1, as an unsigned value of the given modulus. */
  function SignExtend(modulus: nat, v: nat, k: nat): nat
    requires modulus > 0 && k > 0
  {
    if v / Pow2(7 * k - 1) % 2 == 1 then (v - Pow2(7 * k)) % modulus else v % modulus
  }

  /** The byte at `i` is there and is a last byte. */
  predicate Ends(p: seq<byte>, i: nat) { i < |p| && p[i] < 128 }

  function ReadU32(p: seq<byte>, i: nat): Option<Parsed> {
    if Ends(p, i) then Some(Parsed(Leb(p, i, 1), i + 1))
    else if Ends(p, i + 1) then Some(Parsed(Leb(p, i, 2), i + 2))
    else if Ends(p, i + 2) then Some(Parsed(Leb(p, i, 3), i + 3))
    else if Ends(p, i + 3) then Some(Parsed(Leb(p, i, 4), i + 4))
    else if Ends(p, i + 4) then
      if p[i + 4] / 16 != 0 then None else Some(Parsed(Leb(p, i, 5), i + 5))
    else None
  }

  function ReadS32(p: seq<byte>, i: nat): Option<Parsed> {
    if Ends(p, i) then Some(Parsed(SignExtend(TWO_TO_32, Leb(p, i, 1), 1), i + 1))
    else if Ends(p, i + 1) then Some(Parsed(SignExtend(TWO_TO_32, Leb(p, i, 2), 2), i + 2))
    else if Ends(p, i + 2) then Some(Parsed(SignExtend(TWO_TO_32, Leb(p, i, 3), 3), i + 3))
    else if Ends(p, i + 3) then Some(Parsed(SignExtend(TWO_TO_32, Leb(p, i, 4), 4), i + 4))
    else if Ends(p, i + 4) then
      var (sign, top) := (p[i + 4] / 8 % 2 == 1, p[i + 4] / 16 * 16);
      if (sign && top != 0x70) || (!sign && top != 0) then None
      else Some(Parsed(Leb(p, i, 5) % TWO_TO_32, i + 5))
    else None
  }

  function ReadU64(p: seq<byte>, i: nat): Option<Parsed> {
    if Ends(p, i) then Some(Parsed(Leb(p, i, 1), i + 1))
    else if Ends(p, i + 1) then Some(Parsed(Leb(p, i, 2), i + 2))
    else if Ends(p, i + 2) then Some(Parsed(Leb(p, i, 3), i + 3))
    else if Ends(p, i + 3) then Some(Parsed(Leb(p, i, 4), i + 4))
    else if Ends(p, i + 4) then Some(Parsed(Leb(p, i, 5), i + 5))
    else if Ends(p, i + 5) then Some(Parsed(Leb(p, i, 6), i + 6))
    else if Ends(p, i + 6) then Some(Parsed(Leb(p, i, 7), i + 7))
    else if Ends(p, i + 7) then Some(Parsed(Leb(p, i, 8), i + 8))
    else if Ends(p, i + 8) then Some(Parsed(Leb(p, i, 9), i + 9))
    else if Ends(p, i + 9) then
      if p[i + 9] / 2 != 0 then None else Some(Parsed(Leb(p, i, 10), i + 10))
    else None
  }

  function ReadS64(p: seq<byte>, i: nat): Option<Parsed> {
    if Ends(p, i) then Some(Parsed(SignExtend(TWO_TO_64, Leb(p, i, 1), 1), i + 1))
    else if Ends(p, i + 1) then Some(Parsed(SignExtend(TWO_TO_64, Leb(p, i, 2), 2), i + 2))
    else if Ends(p, i + 2) then Some(Parsed(SignExtend(TWO_TO_64, Leb(p, i, 3), 3), i + 3))
    else if Ends(p, i + 3) then Some(Parsed(SignExtend(TWO_TO_64, Leb(p, i, 4), 4), i + 4))
    else if Ends(p, i + 4) then Some(Parsed(SignExtend(TWO_TO_64, Leb(p, i, 5), 5), i + 5))
    else if Ends(p, i + 5) then Some(Parsed(SignExtend(TWO_TO_64, Leb(p, i, 6), 6), i + 6))
    else if Ends(p, i + 6) then Some(Parsed(SignExtend(TWO_TO_64, Leb(p, i, 7), 7), i + 7))
    else if Ends(p, i + 7) then Some(Parsed(SignExtend(TWO_TO_64, Leb(p, i, 8), 8), i + 8))
    else if Ends(p, i + 8) then Some(Parsed(SignExtend(TWO_TO_64, Leb(p, i, 9), 9), i + 9))
    else if Ends(p, i + 9) then
      var (sign, top) := (p[i + 9] % 2 == 1, p[i + 9] / 2 * 2);
      if (sign && top != 0x7e) || (!sign && top != 0) then None
      else Some(Parsed(Leb(p, i, 10) % TWO_TO_64, i + 10))
    else None
  }

  // ----- the readers accept exactly the grammar -----

  /** The position of the first last byte, within `max` bytes of `i`. */
  function Span(p: seq<byte>, i: nat, max: nat): (k: nat)
    ensures k <= max && (k > 0 ==> Ends(p, i + k - 1))
    decreases max
  {
    if max == 0 then 0 else if Ends(p, i) then 1 else if i >= |p| then 0
    else var k := Span(p, i + 1, max - 1); if k == 0 then 0 else k + 1
  }

  /** The grammar in terms of the first last byte. */
  lemma {:induction false} GrammarUSpan(n: nat, max: nat, p: seq<byte>, i: nat)
    requires 7 * (max - 1) < n <= 7 * max && max > 0
    ensures var k := Span(p, i, max);
            GrammarU(n, p, i) ==
              if k == 0 then None
              else if k == max && p[i + k - 1] >= Pow2(n - 7 * (max - 1)) then None
              else Some(Parsed(Leb(p, i, k), i + k))
    decreases max
  {
    if i < |p| && p[i] < 128 {
      if max > 1 { Pow2AtLeast(n, 7); }
    } else if i < |p| && max > 1 {
      GrammarUSpan(n - 7, max - 1, p, i + 1);
    }
  }

  lemma {:induction false} Pow2AtLeast(n: nat, k: nat)
    requires n >= k
    ensures Pow2(n) >= Pow2(k) && Pow2(7) == 128 && Pow2(6) == 64
  {
    if n > k { Pow2AtLeast(n - 1, k); } else { assert Pow2(3) == 8; }
  }

  lemma SpanUnroll5(p: seq<byte>, i: nat)
    ensures Span(p, i, 5) ==
              if Ends(p, i) then 1 else if Ends(p, i + 1) then 2 else if Ends(p, i + 2) then 3
              else if Ends(p, i + 3) then 4 else if Ends(p, i + 4) then 5 else 0
  {
    assert Span(p, i + 5, 0) == 0;
    assert Span(p, i + 3, 2) == if Ends(p, i + 3) then 1 else if Ends(p, i + 4) then 2 else 0;
  }

  lemma SpanUnroll10(p: seq<byte>, i: nat)
    ensures Span(p, i, 10) ==
              if Ends(p, i) then 1 else if Ends(p, i + 1) then 2 else if Ends(p, i + 2) then 3
              else if Ends(p, i + 3) then 4 else if Ends(p, i + 4) then 5 else if Ends(p, i + 5) then 6
              else if Ends(p, i + 6) then 7 else if Ends(p, i + 7) then 8 else if Ends(p, i + 8) then 9
              else if Ends(p, i + 9) then 10 else 0
  {
    SpanUnroll5(p, i + 5);
    assert Span(p, i + 4, 6) == if Ends(p, i + 4) then 1 else if Span(p, i + 5, 5) == 0 then 0
        else Span(p, i + 5, 5) + 1;
    assert Span(p, i + 3, 7) == if Ends(p, i + 3) then 1 else if Span(p, i + 4, 6) == 0 then 0
        else Span(p, i + 4, 6) + 1;
    assert Span(p, i + 2, 8) == if Ends(p, i + 2) then 1 else if Span(p, i + 3, 7) == 0 then 0
        else Span(p, i + 3, 7) + 1;
    assert Span(p, i + 1, 9) == if Ends(p, i + 1) then 1 else if Span(p, i + 2, 8) == 0 then 0
        else Span(p, i + 2, 8) + 1;
  }

  /** The unsigned readers accept exactly the encodings of the standard, with its values. */
  lemma ReadU32IsGrammar(p: seq<byte>, i: nat)
    ensures ReadU32(p, i) == GrammarU(32, p, i)
  {
    GrammarUSpan(32, 5, p, i);
    SpanUnroll5(p, i);
    Pow2Values();
  }

  lemma ReadU64IsGrammar(p: seq<byte>, i: nat)
    ensures ReadU64(p, i) == GrammarU(64, p, i)
  {
    hide Leb, GrammarU;
    GrammarUSpan(64, 10, p, i);
    SpanUnroll10(p, i);
    hide Span;
    Pow2Values();
  }

  /** The reading of `k` bytes as a signed number of 7k bits. */
  function LebS(p: seq<byte>, i: nat, k: nat): int
    decreases k
  {
    if k == 0 then 0
    else if k == 1 then (if Payload(p, i) >= 64 then Payload(p, i) - 128 else Payload(p, i))
    else Payload(p, i) + 128 * LebS(p, i + 1, k - 1)
  }

  /** The bits of a last byte above the sign bit `h` are not copies of it. */
  predicate BadLastS(b: int, h: int) { if b < 64 then b >= h else b < 128 - h }

  lemma {:induction false} GrammarSSpan(n: nat, max: nat, p: seq<byte>, i: nat)
    requires 7 * (max - 1) < n <= 7 * max && max > 0
    ensures var k := Span(p, i, max);
            GrammarS(n, p, i) ==
              if k == 0 then None
              else if k == max && BadLastS(p[i + k - 1], Pow2(n - 7 * (max - 1) - 1)) then None
              else Some(Parsed(LebS(p, i, k), i + k))
    decreases max
  {
    if i < |p| && p[i] < 128 {
      if max > 1 { Pow2AtLeast(n - 1, 6); }
    } else if i < |p| && max > 1 {
      GrammarSSpan(n - 7, max - 1, p, i + 1);
    }
  }

  /** Sign extension of the unsigned reading is the signed reading. */
  lemma {:induction false} SignedReading(p: seq<byte>, i: nat, k: nat)
    requires k > 0
    ensures var (u, s) := (Leb(p, i, k), LebS(p, i, k));
            && 0 <= u < Pow2(7 * k)
            && s == (if u >= Pow2(7 * k - 1) then u - Pow2(7 * k) else u)
    decreases k
  {
    Pow2Group(k);
    if k == 1 {
      Pow2Values();
    } else {
      SignedReading(p, i + 1, k - 1);
      assert Pow2(7 * k - 1) == 2 * Pow2(7 * k - 2) == 4 * Pow2(7 * k - 3) == 8 * Pow2(7 * k - 4);
      assert Pow2(7 * k - 4) == 2 * Pow2(7 * k - 5) == 4 * Pow2(7 * k - 6) == 8 * Pow2(7 * k - 7)
          == 16 * Pow2(7 * k - 8);
    }
  }

  lemma ExtendIs(modulus: nat, p: seq<byte>, i: nat, k: nat)
    requires modulus > 0 && k > 0
    ensures SignExtend(modulus, Leb(p, i, k), k) == LebS(p, i, k) % modulus
  {
    SignedReading(p, i, k);
    var u := Leb(p, i, k);
    var h := Pow2(7 * k - 1);
    assert Pow2(7 * k) == 2 * h;
    HalfBit(u, h);
  }

  lemma HalfBit(u: nat, h: nat)
    requires u < 2 * h
    ensures u / h % 2 == 1 <==> u >= h
  {
    if u >= h {
      assert u == 1 * h + (u - h);
      DivIs(u, h, 1, u - h);
    } else {
      DivIs(u, h, 0, u);
    }
  }

  lemma DivIs(u: nat, h: nat, q: nat, r: nat)
    requires h > 0 && u == q * h + r && r < h && q <= 1
    ensures u / h == q
  {
    var d := u / h;
    assert u == h * d + u % h;
    if q == 0 { assert d == 0 by { if d >= 1 { MulGrows(h, d, 1); } } }
    else { if d >= 2 { MulGrows(h, d, 2); } }
  }

  lemma MulGrows(h: nat, d: nat, k: nat)
    requires d >= k
    ensures h * d >= h * k
  {}

  /** Values of the grammar, read as bit patterns. */
  function Pattern(modulus: nat, r: Option<Parsed>): Option<Parsed>
    requires modulus > 0
  {
    match r
    case None => None
    case Some(x) => Some(Parsed(x.value % modulus, x.next))
  }

  /** The test on the last byte's top bits: copies of the sign bit `h`. */
  lemma TopBits(b: byte)
    requires b < 128
    ensures var (sign, top) := (b / 8 % 2 == 1, b / 16 * 16);
            (sign && top != 0x70) || (!sign && top != 0) <==> BadLastS(b, 8)
    ensures var (sign, top) := (b % 2 == 1, b / 2 * 2);
            (sign && top != 0x7e) || (!sign && top != 0) <==> BadLastS(b, 1)
  {}

  lemma ReadS32Span(p: seq<byte>, i: nat)
    ensures var k := Span(p, i, 5);
            ReadS32(p, i) ==
              if k == 0 then None
              else if k < 5 then Some(Parsed(SignExtend(TWO_TO_32, Leb(p, i, k), k), i + k))
              else if BadLastS(p[i + 4], 8) then None else Some(Parsed(Leb(p, i, 5) % TWO_TO_32, i + 5))
  {
    hide SignExtend, Leb;
    SpanUnroll5(p, i);
    hide Span, BadLastS;
    if i + 4 < |p| && p[i + 4] < 128 { TopBits(p[i + 4]); }
  }

  lemma ReadS64Span(p: seq<byte>, i: nat)
    ensures var k := Span(p, i, 10);
            ReadS64(p, i) ==
              if k == 0 then None
              else if k < 10 then Some(Parsed(SignExtend(TWO_TO_64, Leb(p, i, k), k), i + k))
              else if BadLastS(p[i + 9], 1) then None else Some(Parsed(Leb(p, i, 10) % TWO_TO_64, i + 10))
  {
    hide SignExtend, Leb;
    SpanUnroll10(p, i);
    hide Span, BadLastS;
    if i + 9 < |p| && p[i + 9] < 128 { TopBits(p[i + 9]); }
  }

  lemma Multiple32(u: int)
    ensures (u - 8 * TWO_TO_32) % TWO_TO_32 == u % TWO_TO_32
  {}

  lemma Multiple64(u: int)
    ensures (u - 64 * TWO_TO_64) % TWO_TO_64 == u % TWO_TO_64
  {}

  lemma BigPowers()
    ensures Pow2(35) == 8 * TWO_TO_32 && Pow2(70) == 64 * TWO_TO_64
  {
    Pow2Values();
    assert Pow2(67) == 8 * TWO_TO_64;
  }

  /** The last byte's bits above the width do not matter. */
  lemma LastLeb32(p: seq<byte>, i: nat)
    ensures LebS(p, i, 5) % TWO_TO_32 == Leb(p, i, 5) % TWO_TO_32
  {
    hide Leb, LebS, Pow2;
    SignedReading(p, i, 5);
    BigPowers();
    Multiple32(Leb(p, i, 5));
  }

  lemma LastLeb64(p: seq<byte>, i: nat)
    ensures LebS(p, i, 10) % TWO_TO_64 == Leb(p, i, 10) % TWO_TO_64
  {
    hide Leb, LebS, Pow2;
    SignedReading(p, i, 10);
    BigPowers();
    Multiple64(Leb(p, i, 10));
  }

  /** The signed readers accept exactly the encodings of the standard, and give the values'
      two's-complement patterns. */
  lemma ReadS32IsGrammar(p: seq<byte>, i: nat)
    ensures ReadS32(p, i) == Pattern(TWO_TO_32, GrammarS(32, p, i))
  {
    hide SignExtend, GrammarS, ReadS32, Leb, LebS, Span, BadLastS;
    GrammarSSpan(32, 5, p, i);
    ReadS32Span(p, i);
    Pow2Values();
    LastLeb32(p, i);
    var k := Span(p, i, 5);
    if k > 0 { ExtendIs(TWO_TO_32, p, i, k); }
  }

  lemma ReadS64IsGrammar(p: seq<byte>, i: nat)
    ensures ReadS64(p, i) == Pattern(TWO_TO_64, GrammarS(64, p, i))
  {
    hide SignExtend, GrammarS, ReadS64, Leb, LebS, Span, BadLastS;
    GrammarSSpan(64, 10, p, i);
    ReadS64Span(p, i);
    Pow2Values();
    LastLeb64(p, i);
    var k := Span(p, i, 10);
    if k > 0 { ExtendIs(TWO_TO_64, p, i, k); }
  }

  // ----- round trips -----

  /** The bytes `e` stand in `p` at `i`. */
  predicate Stands(p: seq<byte>, i: nat, e: seq<byte>) {
    i + |e| <= |p| && p[i..i + |e|] == e
  }

  lemma StandsTail(p: seq<byte>, i: nat, e: seq<byte>)
    requires Stands(p, i, e) && e != []
    ensures i < |p| && p[i] == e[0] && Stands(p, i + 1, e[1..])
  {
    assert p[i..i + |e|][0] == p[i];
    assert p[i + 1..i + |e|] == p[i..i + |e|][1..];
  }

  /** Every unsigned value below 2^n is read back from where it was written. */
  lemma {:induction false} RoundTripU(n: nat, v: nat, p: seq<byte>, i: nat)
    requires v < Pow2(n) && Stands(p, i, EncodeU(v))
    ensures GrammarU(n, p, i) == Some(Parsed(v, i + |EncodeU(v)|))
    decreases n
  {
    StandsTail(p, i, EncodeU(v));
    if v >= 128 {
      if n <= 7 { Pow2AtLeast(7, n); } else {
        Pow2Shift(n);
        assert EncodeU(v)[1..] == EncodeU(v / 128);
        RoundTripU(n - 7, v / 128, p, i + 1);
      }
    }
  }

  lemma Pow2Shift(n: nat)
    requires n >= 7
    ensures Pow2(n) == 128 * Pow2(n - 7)
  {
    assert Pow2(n) == 2 * Pow2(n - 1) == 4 * Pow2(n - 2) == 8 * Pow2(n - 3);
    assert Pow2(n - 3) == 2 * Pow2(n - 4) == 4 * Pow2(n - 5) == 8 * Pow2(n - 6);
  }

  /** Every signed value of n bits is read back from where it was written. */
  lemma {:induction false} RoundTripS(n: nat, v: int, p: seq<byte>, i: nat)
    requires n > 0 && -Pow2(n - 1) <= v < Pow2(n - 1) && Stands(p, i, EncodeS(v))
    ensures GrammarS(n, p, i) == Some(Parsed(v, i + |EncodeS(v)|))
    decreases n
  {
    StandsTail(p, i, EncodeS(v));
    if !LastS(v) {
      if n <= 7 { Pow2AtLeast(6, n - 1); } else {
        Pow2Shift(n - 1);
        assert EncodeS(v)[1..] == EncodeS(v / 128);
        RoundTripS(n - 7, v / 128, p, i + 1);
      }
    }
  }

  /** No accepted encoding of a value is shorter than the one written. */
  lemma {:induction false} ShortestU(n: nat, p: seq<byte>, i: nat)
    requires GrammarU(n, p, i).Some?
    ensures GrammarU(n, p, i).value.value >= 0
    ensures |EncodeU(GrammarU(n, p, i).value.value)| <= GrammarU(n, p, i).value.next - i
    decreases n
  {
    if p[i] >= 128 { ShortestU(n - 7, p, i + 1); }
  }

  lemma {:induction false} ShortestS(n: nat, p: seq<byte>, i: nat)
    requires n > 0 && GrammarS(n, p, i).Some?
    ensures |EncodeS(GrammarS(n, p, i).value.value)| <= GrammarS(n, p, i).value.next - i
    decreases n
  {
    if p[i] >= 128 {
      ShortestS(n - 7, p, i + 1);
      var v := GrammarS(n, p, i).value.value;
      assert v / 128 == GrammarS(n - 7, p, i + 1).value.value;
    }
  }

  lemma {:induction false} LengthU(k: nat, v: nat)
    requires k > 0 && v < Pow2(7 * k)
    ensures |EncodeU(v)| <= k
    decreases k
  {
    if v >= 128 {
      if k == 1 { Pow2Values(); } else {
        Pow2Group(k);
        LengthU(k - 1, v / 128);
      }
    }
  }

  lemma {:induction false} LengthS(k: nat, v: int)
    requires k > 0 && -Pow2(7 * k - 1) <= v < Pow2(7 * k - 1)
    ensures |EncodeS(v)| <= k
    decreases k
  {
    if !LastS(v) {
      StillInRange(k, v);
      LengthS(k - 1, v / 128);
    }
  }

  /** The signed reading of a 32-bit or 64-bit pattern. */
  function Twos(half: int, v: int): int { if v >= half then v - 2 * half else v }

  /** The four value kinds come back unchanged, with exactly the bytes written consumed, and
      take at most 5 or 10 bytes. */
  lemma RoundTripU32(v: nat, p: seq<byte>, i: nat)
    requires v < TWO_TO_32 && Stands(p, i, EncodeU(v))
    ensures ReadU32(p, i) == Some(Parsed(v, i + |EncodeU(v)|)) && |EncodeU(v)| <= 5
  {
    hide EncodeU, GrammarU, ReadU32, Pow2;
    Pow2Values();
    RoundTripU(32, v, p, i);
    ReadU32IsGrammar(p, i);
    Pow2AtLeast(35, 32);
    LengthU(5, v);
  }

  lemma RoundTripU64(v: nat, p: seq<byte>, i: nat)
    requires v < TWO_TO_64 && Stands(p, i, EncodeU(v))
    ensures ReadU64(p, i) == Some(Parsed(v, i + |EncodeU(v)|)) && |EncodeU(v)| <= 10
  {
    hide EncodeU, GrammarU, ReadU64, Pow2;
    Pow2Values();
    RoundTripU(64, v, p, i);
    ReadU64IsGrammar(p, i);
    Pow2AtLeast(70, 64);
    LengthU(10, v);
  }

  lemma RoundTripS32(v: nat, p: seq<byte>, i: nat)
    requires v < TWO_TO_32 && Stands(p, i, EncodeS(Twos(TWO_TO_31, v)))
    ensures ReadS32(p, i) == Some(Parsed(v, i + |EncodeS(Twos(TWO_TO_31, v))|)) && |EncodeS(Twos(TWO_TO_31, v))| <= 5
  {
    hide EncodeS, GrammarS, ReadS32, Pow2;
    Pow2Values();
    var x := Twos(TWO_TO_31, v);
    RoundTripS(32, x, p, i);
    ReadS32IsGrammar(p, i);
    Pow2AtLeast(34, 31);
    LengthS(5, x);
  }

  lemma RoundTripS64(v: nat, p: seq<byte>, i: nat)
    requires v < TWO_TO_64 && Stands(p, i, EncodeS(Twos(TWO_TO_63, v)))
    ensures ReadS64(p, i) == Some(Parsed(v, i + |EncodeS(Twos(TWO_TO_63, v))|)) && |EncodeS(Twos(TWO_TO_63, v))| <= 10
  {
    hide EncodeS, GrammarS, ReadS64, Pow2;
    Pow2Values();
    var x := Twos(TWO_TO_63, v);
    RoundTripS(64, x, p, i);
    ReadS64IsGrammar(p, i);
    Pow2AtLeast(69, 63);
    LengthS(10, x);
  }

  /** The fixed five-byte forms read as the same values. */
  lemma FixedU32Reads(v: nat, p: seq<byte>, i: nat)
    requires v < TWO_TO_32 && Stands(p, i, FixedU32(v))
    ensures ReadU32(p, i) == Some(Parsed(v, i + 5))
  {
    hide Leb;
    FiveBytes(p, i, FixedU32(v));
    FiveDigits(v);
    FixedLeb(p, i, v % 128, v / 0x80 % 128, v / 0x4000 % 128, v / 0x20_0000 % 128, v / 0x1000_0000 % 16);
  }

  lemma FixedS32Reads(v: nat, p: seq<byte>, i: nat)
    requires v < TWO_TO_32 && Stands(p, i, FixedS32(v))
    ensures ReadS32(p, i) == Some(Parsed(v, i + 5))
  {
    hide Leb, Stands;
    FiveBytes(p, i, FixedS32(v));
    FiveDigits(v);
    var last := v / 0x1000_0000 % 16;
    assert v >= TWO_TO_31 <==> last >= 8;
    FixedLeb(p, i, v % 128, v / 0x80 % 128, v / 0x4000 % 128, v / 0x20_0000 % 128,
        if v >= TWO_TO_31 then last + 0x70 else last);
    SignedLast(p[i + 4], last, v >= TWO_TO_31);
    if v >= TWO_TO_31 { assert (v + 7 * TWO_TO_32) % TWO_TO_32 == v; }
  }

  lemma SignedLast(b: byte, last: nat, high: bool)
    requires last < 16 && (high <==> last >= 8) && b == if high then last + 0x70 else last
    ensures b / 8 % 2 == (if high then 1 else 0) && b / 16 * 16 == (if high then 0x70 else 0)
  {}

  /** Four continuing bytes and a last one. */
  lemma FixedLeb(p: seq<byte>, i: nat, a: nat, b: nat, c: nat, d: nat, e: nat)
    requires a < 128 && b < 128 && c < 128 && d < 128 && e < 128 && i + 5 <= |p|
    requires p[i] == a + 128 && p[i + 1] == b + 128 && p[i + 2] == c + 128 && p[i + 3] == d + 128 && p[i + 4] == e
    ensures Leb(p, i, 5) == a + 0x80 * b + 0x4000 * c + 0x20_0000 * d + 0x1000_0000 * e
  {
    hide Leb;
    Leb5(p, i);
  }

  lemma FiveBytes(p: seq<byte>, i: nat, e: seq<byte>)
    requires |e| == 5 && Stands(p, i, e)
    ensures i + 5 <= |p| && p[i] == e[0] && p[i + 1] == e[1] && p[i + 2] == e[2] && p[i + 3] == e[3] && p[i + 4] == e[4]
  {
    var q := p[i..i + 5];
    assert q[0] == p[i] && q[1] == p[i + 1] && q[2] == p[i + 2] && q[3] == p[i + 3] && q[4] == p[i + 4];
  }

  lemma Leb5(p: seq<byte>, i: nat)
    ensures Leb(p, i, 5) == Payload(p, i) + 0x80 * Payload(p, i + 1) + 0x4000 * Payload(p, i + 2)
        + 0x20_0000 * Payload(p, i + 3) + 0x1000_0000 * Payload(p, i + 4)
  {
    assert Leb(p, i + 3, 2) == Payload(p, i + 3) + 128 * Payload(p, i + 4) by { assert Leb(p, i + 5, 0) == 0; }
  }

  lemma FiveDigits(v: nat)
    requires v < TWO_TO_32
    ensures v == v % 128 + 0x80 * (v / 0x80 % 128) + 0x4000 * (v / 0x4000 % 128) + 0x20_0000 * (v / 0x20_0000 % 128)
        + 0x1000_0000 * (v / 0x1000_0000 % 16)
  {
    var (a, b, c, d) := (v / 0x80, v / 0x4000, v / 0x20_0000, v / 0x1000_0000);
    assert b == a / 128 && c == b / 128 && d == c / 128;
  }

  /** Signed encodings of values below 2^31 read the same through the unsigned reader. */
  lemma SignedThroughUnsigned(v: nat, p: seq<byte>, i: nat)
    requires v < TWO_TO_31 && Stands(p, i, EncodeS(v))
    ensures ReadU32(p, i) == Some(Parsed(v, i + |EncodeS(v)|))
  {
    hide EncodeS, GrammarU, ReadU32, Pow2;
    Pow2Values();
    ReadU32IsGrammar(p, i);
    CrossReads(32, v, p, i);
  }

  lemma {:induction false} CrossReads(n: nat, v: nat, p: seq<byte>, i: nat)
    requires n > 0 && v < Pow2(n - 1) && Stands(p, i, EncodeS(v))
    ensures GrammarU(n, p, i) == Some(Parsed(v, i + |EncodeS(v)|))
    decreases n
  {
    StandsTail(p, i, EncodeS(v));
    Pow2AtLeast(n, n - 1);
    if !LastS(v) {
      if n <= 7 { Pow2AtLeast(6, n - 1); } else {
        Pow2Shift(n - 1);
        assert EncodeS(v)[1..] == EncodeS(v / 128);
        CrossReads(n - 7, v / 128, p, i + 1);
      }
    }
  }

  /** A signed encoding that the unsigned reader takes for something else: the bound is tight. */
  lemma SignedAboveUnsigned()
    ensures ReadU32(EncodeS(Twos(TWO_TO_31, TWO_TO_31)), 0) == None
  {
    var v := Twos(TWO_TO_31, TWO_TO_31);
    assert EncodeS(-8) == [120];
    assert EncodeS(-1024) == [128] + EncodeS(-8);
    assert EncodeS(-131072) == [128] + EncodeS(-1024);
    assert EncodeS(-16777216) == [128] + EncodeS(-131072);
    assert EncodeS(v) == [128] + EncodeS(-16777216);
    assert EncodeS(v) == [128, 128, 128, 128, 120];
  }
}

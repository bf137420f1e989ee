/** Name mangling: arbitrary bytes to C identifiers, with a decoder that undoes it exactly for
    the names in which no lost zero is taken for an escape. */
module Mangling {
  import opened Leb128

  type Name = seq<byte>

  const ZERO_CHAR: byte := 48

  const X_CHAR: byte := 120

  const UNDERSCORE: byte := 95

  predicate Alpha(c: byte) { 65 <= c <= 90 || 97 <= c <= 122 }

  predicate Digit(c: byte) { 48 <= c <= 57 }

  predicate Alnum(c: byte) { Alpha(c) || Digit(c) }

  predicate Hex(c: byte) { Digit(c) || 65 <= c <= 70 }

  function HexDigit(v: nat): byte
    requires v < 16
  {
    if v < 10 then 48 + v else 55 + v
  }

  function HexValue(c: byte): nat {
    if Digit(c) then c - 48 else if 65 <= c <= 70 then c - 55 else 0
  }

  function Escaped(c: byte): Name { [ZERO_CHAR, X_CHAR, HexDigit(c / 16), HexDigit(c % 16)] }

  // ----- mangling -----

  datatype State = Any | Zero | ZeroX | ZeroXHexDigit

  function Next(st: State, c: byte): State {
    match st
    case Any => if c == ZERO_CHAR then Zero else Any
    case Zero => if c == X_CHAR then ZeroX else Any
    case ZeroX => if Hex(c) then ZeroXHexDigit else Any
    case ZeroXHexDigit => Any
  }

  /** Rules 1, 2 and 4: whether the byte at `i` is escaped. */
  predicate Escapes(name: Name, i: nat, st: State, lastUnderscore: bool)
    requires i < |name|
  {
    Next(st, name[i]) == ZeroXHexDigit
    || (name[i] == UNDERSCORE && (i == 0 || i + 1 == |name| || lastUnderscore))
    || !(Alnum(name[i]) || name[i] == UNDERSCORE)
  }

  /** The bytes written for the byte at `i`. */
  function Piece(name: Name, i: nat, st: State, lastUnderscore: bool, double: bool): Name
    requires i < |name|
  {
    if Escapes(name, i, st, lastUnderscore) then Escaped(name[i])
    else if double && name[i] == UNDERSCORE then [UNDERSCORE, UNDERSCORE]
    else [name[i]]
  }

  function StateAfter(name: Name, i: nat, st: State, lastUnderscore: bool): State
    requires i < |name|
  {
    if Escapes(name, i, st, lastUnderscore) then Any else Next(st, name[i])
  }

  function UnderscoreAfter(name: Name, i: nat, st: State, lastUnderscore: bool): bool
    requires i < |name|
  {
    !Escapes(name, i, st, lastUnderscore) && name[i] == UNDERSCORE
  }

  /** The output for the bytes from `i` on. */
  function Out(name: Name, i: nat, st: State, lastUnderscore: bool, double: bool): Name
    requires i <= |name|
    decreases |name| - i
  {
    if i == |name| then []
    else Piece(name, i, st, lastUnderscore, double)
         + Out(name, i + 1, StateAfter(name, i, st, lastUnderscore), UnderscoreAfter(name, i, st, lastUnderscore),
             double)
  }

  function Mangled(name: Name, double: bool): Name { Out(name, 0, Any, false, double) }

  /** The loop of Mangle. */
  method Mangle(name: Name, double: bool) returns (result: Name)
    ensures result == Mangled(name, double)
  {
    hide Out, Escaped, Alnum, Hex;
    result := [];
    var st := Any;
    var lastWasUnderscore := false;
    var i := 0;
    while i < |name|
      invariant 0 <= i <= |name|
      invariant Mangled(name, double) == result + Out(name, i, st, lastWasUnderscore, double)
    {
      var c := name[i];
      ghost var (st0, last0, r0) := (st, lastWasUnderscore, result);
      OutIs(name, i, st, lastWasUnderscore, double);
      var piece: Name;
      st := Next(st, c);
      if st == ZeroXHexDigit {
        piece, lastWasUnderscore, st := Escaped(c), false, Any;
      } else if c == UNDERSCORE && (i == 0 || i + 1 == |name| || lastWasUnderscore) {
        piece, lastWasUnderscore, st := Escaped(c), false, Any;
      } else if double && c == UNDERSCORE {
        piece, lastWasUnderscore := [c, c], true;
      } else if Alnum(c) || c == UNDERSCORE {
        piece, lastWasUnderscore := [c], c == UNDERSCORE;
      } else {
        piece, lastWasUnderscore, st := Escaped(c), false, Any;
      }
      assert piece == Piece(name, i, st0, last0, double) && st == StateAfter(name, i, st0, last0)
          && lastWasUnderscore == UnderscoreAfter(name, i, st0, last0);
      Joined(result, piece, Out(name, i + 1, st, lastWasUnderscore, double));
      result := result + piece;
      i := i + 1;
    }
    OutEnd(name, st, lastWasUnderscore, double);
    assert result + [] == result;
  }

  lemma Joined(a: Name, b: Name, c: Name)
    ensures a + (b + c) == a + b + c
  {}

  // ----- the output -----

  /** Letters, digits and underscores only. */
  lemma {:induction false} Identifier(name: Name, i: nat, st: State, lastUnderscore: bool, double: bool)
    requires i <= |name|
    ensures forall c | c in Out(name, i, st, lastUnderscore, double) :: Alnum(c) || c == UNDERSCORE
    decreases |name| - i
  {
    if i < |name| {
      Identifier(name, i + 1, StateAfter(name, i, st, lastUnderscore), UnderscoreAfter(name, i, st, lastUnderscore),
          double);
    }
  }

  /** No underscore at either end. */
  lemma {:induction false} LastNotUnderscore(name: Name, i: nat, st: State, lastUnderscore: bool, double: bool)
    requires i < |name|
    ensures var r := Out(name, i, st, lastUnderscore, double);
            r != [] && r[|r| - 1] != UNDERSCORE && (i == 0 ==> r[0] != UNDERSCORE)
    decreases |name| - i
  {
    OutIs(name, i, st, lastUnderscore, double);
    PieceEnds(name, i, st, lastUnderscore, double);
    if i + 1 < |name| {
      LastNotUnderscore(name, i + 1, StateAfter(name, i, st, lastUnderscore),
          UnderscoreAfter(name, i, st, lastUnderscore), double);
    }
    hide Piece, Out, StateAfter, UnderscoreAfter;
    OutEnd(name, StateAfter(name, i, st, lastUnderscore), UnderscoreAfter(name, i, st, lastUnderscore), double);
  }

  lemma PieceEnds(name: Name, i: nat, st: State, lastUnderscore: bool, double: bool)
    requires i < |name|
    ensures var piece := Piece(name, i, st, lastUnderscore, double);
            && piece != []
            && (i == 0 ==> piece[0] != UNDERSCORE)
            && (i + 1 == |name| ==> piece[|piece| - 1] != UNDERSCORE)
  {}

  lemma MangledIsIdentifier(name: Name, double: bool)
    ensures var r := Mangled(name, double);
            && (forall c | c in r :: IdentifierByte(c))
            && (name != [] ==> r != [] && r[0] != UNDERSCORE && r[|r| - 1] != UNDERSCORE)
  {
    Identifier(name, 0, Any, false, double);
    if name != [] { LastNotUnderscore(name, 0, Any, false, double); }
  }

  /** An identifier that nothing has to be done to: letters, digits, and single underscores inside,
      and no 0x before an upper-case hexadecimal digit. */
  predicate Harmless(name: Name) {
    && (forall i | 0 <= i < |name| :: IdentifierByte(name[i]))
    && (name != [] ==> name[0] != UNDERSCORE && name[|name| - 1] != UNDERSCORE)
    && (forall i | 0 <= i < |name| - 1 :: name[i] == UNDERSCORE ==> name[i + 1] != UNDERSCORE)
    && (forall i | 0 <= i < |name| - 2 :: name[i] == ZERO_CHAR && name[i + 1] == X_CHAR ==>
          !(0x30 <= name[i + 2] <= 0x39 || 0x41 <= name[i + 2] <= 0x46))
  }

  /** A to Z, a to z, 0 to 9 and the underscore. */
  predicate IdentifierByte(c: byte) {
    0x41 <= c <= 0x5a || 0x61 <= c <= 0x7a || 0x30 <= c <= 0x39 || c == 0x5f
  }

  function Doubled(name: Name): Name {
    if name == [] then []
    else (if name[0] == UNDERSCORE then [UNDERSCORE, UNDERSCORE] else [name[0]]) + Doubled(name[1..])
  }

  /** What the state and the flag say about the bytes before `i`, if none of them was escaped. */
  predicate Tracked(name: Name, i: nat, st: State, lastUnderscore: bool)
    requires i <= |name|
  {
    && st != ZeroXHexDigit
    && (st == Zero ==> i >= 1 && name[i - 1] == ZERO_CHAR)
    && (st == ZeroX ==> i >= 2 && name[i - 2] == ZERO_CHAR && name[i - 1] == X_CHAR)
    && (lastUnderscore ==> i >= 1 && name[i - 1] == UNDERSCORE)
  }

  lemma AlnumIs(c: byte)
    ensures IdentifierByte(c) <==> Alnum(c) || c == UNDERSCORE
  {}

  /** No byte of such a name is escaped. */
  lemma HarmlessStep(name: Name, i: nat, st: State, lastUnderscore: bool)
    requires Harmless(name) && i < |name| && Tracked(name, i, st, lastUnderscore)
    ensures !Escapes(name, i, st, lastUnderscore)
    ensures Tracked(name, i + 1, Next(st, name[i]), name[i] == UNDERSCORE)
  {
    AlnumIs(name[i]);
    hide IdentifierByte, Alnum;
    if st == ZeroX { assert !Hex(name[i - 2 + 2]); }
    if lastUnderscore { assert name[i - 1 + 1] != UNDERSCORE; }
  }

  lemma {:induction false} HarmlessOut(name: Name, i: nat, st: State, lastUnderscore: bool, double: bool)
    requires Harmless(name) && i <= |name| && Tracked(name, i, st, lastUnderscore)
    ensures Out(name, i, st, lastUnderscore, double) == if double then Doubled(name[i..]) else name[i..]
    decreases |name| - i
  {
    if i < |name| {
      hide Harmless, Tracked, Escapes, Next, Escaped;
      HarmlessStep(name, i, st, lastUnderscore);
      HarmlessOut(name, i + 1, Next(st, name[i]), name[i] == UNDERSCORE, double);
      assert name[i..][0] == name[i] && name[i..][1..] == name[i + 1..];
    }
  }

  /** Such a name is its own identifier, apart from underscores that are doubled. */
  lemma HarmlessKept(name: Name)
    requires Harmless(name)
    ensures Mangled(name, false) == name && Mangled(name, true) == Doubled(name)
  {
    HarmlessOut(name, 0, Any, false, false);
    HarmlessOut(name, 0, Any, false, true);
    assert name[0..] == name;
  }

  // ----- decoding -----

  predicate StartsEscape(s: Name) {
    |s| >= 4 && s[0] == ZERO_CHAR && s[1] == X_CHAR && Hex(s[2]) && Hex(s[3])
  }

  function EscapeValue(a: byte, b: byte): byte
    requires Hex(a) && Hex(b)
  {
    16 * HexValue(a) + HexValue(b)
  }

  function Decode(s: Name, double: bool): Name {
    if s == [] then []
    else if StartsEscape(s) then [EscapeValue(s[2], s[3])] + Decode(s[4..], double)
    else if double && |s| >= 2 && s[0] == UNDERSCORE && s[1] == UNDERSCORE then [UNDERSCORE] + Decode(s[2..], double)
    else [s[0]] + Decode(s[1..], double)
  }

  lemma DecodeEscaped(c: byte, rest: Name, double: bool)
    ensures Decode(Escaped(c) + rest, double) == [c] + Decode(rest, double)
  {
    var s := Escaped(c) + rest;
    assert s[4..] == rest;
  }

  lemma DecodePlain(c: byte, rest: Name, double: bool)
    requires !StartsEscape([c] + rest) && c != UNDERSCORE
    ensures Decode([c] + rest, double) == [c] + Decode(rest, double)
  {
    assert ([c] + rest)[1..] == rest;
  }

  /** What is written first for the byte at `i`. */
  lemma FirstOut(name: Name, i: nat, st: State, lastUnderscore: bool, double: bool)
    requires i < |name|
    ensures var r := Out(name, i, st, lastUnderscore, double);
            && r != []
            && (Escapes(name, i, st, lastUnderscore) ==>
                |r| >= 4 && r[..4] == Escaped(name[i]) && r[4..] == Out(name, i + 1, Any, false, double))
            && (!Escapes(name, i, st, lastUnderscore) ==> r[0] == name[i])
            && (!Escapes(name, i, st, lastUnderscore) && name[i] != UNDERSCORE ==>
                r[1..] == Out(name, i + 1, Next(st, name[i]), false, double))
  {
    hide Out;
    OutIs(name, i, st, lastUnderscore, double);
  }

  lemma OutIs(name: Name, i: nat, st: State, lastUnderscore: bool, double: bool)
    requires i < |name|
    ensures Out(name, i, st, lastUnderscore, double) == Piece(name, i, st, lastUnderscore, double)
              + Out(name, i + 1, StateAfter(name, i, st, lastUnderscore),
                  UnderscoreAfter(name, i, st, lastUnderscore), double)
  {}

  /** The zero at `i` follows one that was tracked, so it is not; what comes after it reads as
      an escape. */
  predicate ClashAt(name: Name, i: nat, st: State) {
    && i + 3 < |name| && st == Zero && name[i] == ZERO_CHAR && name[i + 1] == X_CHAR && Hex(name[i + 2])
    && (Hex(name[i + 3]) || (!Alnum(name[i + 3]) && (name[i + 3] != UNDERSCORE || i + 4 == |name|)))
  }

  /** Some zero from `i` on is lost in front of what reads as an escape. */
  predicate Clashes(name: Name, i: nat, st: State, lastUnderscore: bool)
    requires i <= |name|
    decreases |name| - i
  {
    i < |name| &&
    (ClashAt(name, i, st) || Clashes(name, i + 1, StateAfter(name, i, st, lastUnderscore),
        UnderscoreAfter(name, i, st, lastUnderscore)))
  }

  predicate Clash(name: Name) { Clashes(name, 0, Any, false) }

  /** The first bytes written for the byte at `i`. */
  lemma FirstBytes(name: Name, i: nat, st: State, lastUnderscore: bool, double: bool)
    requires i < |name|
    ensures var r := Out(name, i, st, lastUnderscore, double);
            if Escapes(name, i, st, lastUnderscore) then |r| >= 2 && r[0] == ZERO_CHAR && r[1] == X_CHAR
            else r != [] && r[0] == name[i] && (name[i] != UNDERSCORE ==>
                r[1..] == Out(name, i + 1, Next(st, name[i]), false, double))
  {
    FirstOut(name, i, st, lastUnderscore, double);
  }

  /** A zero written as it is starts an escape in the output exactly at a clash. */
  lemma ZeroStarts(name: Name, i: nat, st: State, lastUnderscore: bool, double: bool)
    requires i < |name| && name[i] == ZERO_CHAR && st != ZeroX && st != ZeroXHexDigit
    ensures StartsEscape(Out(name, i, st, lastUnderscore, double)) <==> ClashAt(name, i, st)
  {
    hide Out;
    FirstBytes(name, i, st, lastUnderscore, double);
    var r := Out(name, i, st, lastUnderscore, double);
    var st1 := Next(st, ZERO_CHAR);
    if i + 1 < |name| {
      FirstBytes(name, i + 1, st1, false, double);
      if name[i + 1] == X_CHAR {
        assert r[1..] == Out(name, i + 1, st1, false, double);
        XStarts(name, i + 1, st1, double, r);
      } else {
        assert r[1] == Out(name, i + 1, st1, false, double)[0];
      }
    } else {
      OutEnd(name, st1, false, double);
    }
  }

  /** The x after that zero, and the two bytes after the x. */
  lemma XStarts(name: Name, i: nat, st1: State, double: bool, r: Name)
    requires i < |name| && name[i] == X_CHAR && (st1 == Zero || st1 == Any)
    requires r != [] && r[0] == ZERO_CHAR && r[1..] == Out(name, i, st1, false, double)
    ensures StartsEscape(r) <==>
              i + 2 < |name| && st1 == Any && Hex(name[i + 1])
                  && (Hex(name[i + 2]) || (!Alnum(name[i + 2]) && (name[i + 2] != UNDERSCORE || i + 3 == |name|)))
  {
    hide Out;
    FirstBytes(name, i, st1, false, double);
    var st2 := Next(st1, X_CHAR);
    var r2 := Out(name, i + 1, st2, false, double);
    assert r[1] == X_CHAR && r[2..] == r2 by { assert r[2..] == r[1..][1..]; }
    if i + 1 < |name| {
      FirstBytes(name, i + 1, st2, false, double);
      assert r[2] == r2[0];
      if Escapes(name, i + 1, st2, false) {
        assert r[3] == r2[1] == X_CHAR;
      } else if Hex(name[i + 1]) {
        var st3 := Next(st2, name[i + 1]);
        var r3 := Out(name, i + 2, st3, false, double);
        assert r[3..] == r3 by { assert r[3..] == r2[1..]; }
        if i + 2 < |name| {
          FirstBytes(name, i + 2, st3, false, double);
          assert r[3] == r3[0];
        } else {
          OutEnd(name, st3, false, double);
        }
      }
    } else {
      OutEnd(name, st2, false, double);
    }
  }

  /** One byte decodes as itself except at a clash. */
  lemma DecodeStep(name: Name, i: nat, st: State, lastUnderscore: bool, double: bool)
    requires i < |name| && !ClashAt(name, i, st) && st != ZeroXHexDigit
    ensures var next := Out(name, i + 1, StateAfter(name, i, st, lastUnderscore),
        UnderscoreAfter(name, i, st, lastUnderscore), double);
            Decode(Out(name, i, st, lastUnderscore, double), double) == [name[i]] + Decode(next, double)
  {
    OutIs(name, i, st, lastUnderscore, double);
    var c := name[i];
    var next := Out(name, i + 1, StateAfter(name, i, st, lastUnderscore),
        UnderscoreAfter(name, i, st, lastUnderscore), double);
    if Escapes(name, i, st, lastUnderscore) {
      DecodeEscaped(c, next, double);
    } else if c == UNDERSCORE {
      var s := Out(name, i, st, lastUnderscore, double);
      if double { assert s[2..] == next; } else { assert s[1..] == next; }
    } else {
      if c == ZERO_CHAR { ZeroStarts(name, i, st, lastUnderscore, double); }
      DecodePlain(c, next, double);
    }
  }

  /** Without a clash the decoder gives the name back. */
  lemma {:induction false} DecodesBack(name: Name, i: nat, st: State, lastUnderscore: bool, double: bool)
    requires i <= |name| && st != ZeroXHexDigit && !Clashes(name, i, st, lastUnderscore)
    ensures Decode(Out(name, i, st, lastUnderscore, double), double) == name[i..]
    decreases |name| - i
  {
    hide Out, Decode, ClashAt;
    if i == |name| {
      OutEnd(name, st, lastUnderscore, double);
    } else {
      DecodeStep(name, i, st, lastUnderscore, double);
      DecodesBack(name, i + 1, StateAfter(name, i, st, lastUnderscore), UnderscoreAfter(name, i, st, lastUnderscore),
          double);
    }
  }

  lemma OutEnd(name: Name, st: State, lastUnderscore: bool, double: bool)
    ensures Out(name, |name|, st, lastUnderscore, double) == [] && Decode([], double) == []
  {}

  // ----- and with a clash it does not -----

  /** Decoding never yields more bytes than were mangled, also behind a left-over zero. */
  lemma {:induction false} DecodeLengths(name: Name, i: nat, st: State, lastUnderscore: bool, double: bool)
    requires i <= |name| && st != ZeroXHexDigit
    ensures var r := Out(name, i, st, lastUnderscore, double);
            |Decode(r, double)| <= |name| - i && |Decode([ZERO_CHAR] + r, double)| <= 1 + |name| - i
    decreases |name| - i
  {
    hide Out, Decode;
    var r := Out(name, i, st, lastUnderscore, double);
    if i == |name| {
      OutEnd(name, st, lastUnderscore, double);
      DecodePlain(ZERO_CHAR, r, double);
    } else {
      var st1, last1 := StateAfter(name, i, st, lastUnderscore), UnderscoreAfter(name, i, st, lastUnderscore);
      DecodeLengths(name, i + 1, st1, last1, double);
      if ClashAt(name, i, st) {
        OutIs(name, i, st, lastUnderscore, double);
      } else {
        DecodeStep(name, i, st, lastUnderscore, double);
      }
      assert |Decode(r, double)| <= |name| - i;
      if StartsEscape([ZERO_CHAR] + r) {
        LeftOver(name, i, st, lastUnderscore, double);
      } else {
        DecodePlain(ZERO_CHAR, r, double);
      }
    }
  }

  /** A left-over zero that does combine with what follows. */
  lemma {:induction false} LeftOver(name: Name, i: nat, st: State, lastUnderscore: bool, double: bool)
    requires i < |name| && st != ZeroXHexDigit
    requires StartsEscape([ZERO_CHAR] + Out(name, i, st, lastUnderscore, double))
    ensures |Decode([ZERO_CHAR] + Out(name, i, st, lastUnderscore, double), double)| <= 1 + |name| - i
    decreases |name| - i, 0
  {
    hide Out, Decode;
    var r := Out(name, i, st, lastUnderscore, double);
    FirstOut(name, i, st, lastUnderscore, double);
    assert name[i] == X_CHAR;
    var st1 := Next(st, X_CHAR);
    if i + 1 < |name| { FirstOut(name, i + 1, st1, false, double); } else { OutEnd(name, st1, false, double); }
    var r1 := Out(name, i + 1, st1, false, double);
    assert r1 == r[1..] && Hex(r1[0]) && Hex(r1[1]);
    assert !Escapes(name, i + 1, st1, false);
    var st2 := Next(st1, name[i + 1]);
    if i + 2 < |name| { FirstOut(name, i + 2, st2, false, double); } else { OutEnd(name, st2, false, double); }
    var r2 := Out(name, i + 2, st2, false, double);
    assert r1[1..] == r2;
    var s := [ZERO_CHAR] + r;
    assert s[3..] == r2 && s[4..] == r2[1..];
    Swallowed(name, i + 2, st2, double, s);
  }

  /** Two hex digits have been read into an escape; the second is the first byte written for
      the byte at `i`. */
  lemma {:induction false} Swallowed(name: Name, i: nat, st: State, double: bool, s: Name)
    requires i < |name| && st != ZeroXHexDigit
    requires StartsEscape(s) && s[3..] == Out(name, i, st, false, double)
    ensures |Decode(s, double)| <= 3 + |name| - i
    decreases |name| - i, 1
  {
    hide Out, Decode;
    FirstOut(name, i, st, false, double);
    var r := Out(name, i, st, false, double);
    assert s[3] == r[0] && s[4..] == r[1..];
    DecodeAt(s, double);
    if Escapes(name, i, st, false) {
      var e, rest := Escaped(name[i]), Out(name, i + 1, Any, false, double);
      assert r[1..] == e[1..] + rest by { assert r == e + rest; }
      HexNotX(e[2]);
      HexNotX(e[3]);
      var t := [e[3]] + rest;
      assert e[1..] + rest == [X_CHAR] + ([e[2]] + t);
      DecodePlain(X_CHAR, [e[2]] + t, double);
      DecodePlain(e[2], t, double);
      DecodeLengths(name, i + 1, Any, false, double);
      if e[3] != ZERO_CHAR { DecodePlain(e[3], rest, double); }
    } else {
      DecodeLengths(name, i + 1, Next(st, name[i]), false, double);
    }
  }

  lemma HexNotX(c: byte)
    requires Hex(c)
    ensures c != X_CHAR && c != UNDERSCORE
  {}

  lemma DecodeAt(s: Name, double: bool)
    requires StartsEscape(s)
    ensures Decode(s, double) == [EscapeValue(s[2], s[3])] + Decode(s[4..], double)
  {}

  /** At a clash the decoder goes wrong. */
  lemma DecodeClash(name: Name, i: nat, st: State, lastUnderscore: bool, double: bool)
    requires i < |name| && ClashAt(name, i, st)
    ensures Decode(Out(name, i, st, lastUnderscore, double), double) != name[i..]
  {
    hide Out, Decode;
    var r := Out(name, i, st, lastUnderscore, double);
    ZeroStarts(name, i, st, lastUnderscore, double);
    FirstOut(name, i, st, lastUnderscore, double);
    FirstOut(name, i + 1, Any, false, double);
    FirstOut(name, i + 2, Any, false, double);
    var st3 := Next(Any, name[i + 2]);
    FirstOut(name, i + 3, st3, false, double);
    var r3 := Out(name, i + 3, st3, false, double);
    assert r[3..] == r3 && r[2] == name[i + 2];
    DecodeAt(r, double);
    var value := EscapeValue(r[2], r[3]);
    var got := Decode(r, double);
    assert got[0] == value && name[i..][0] == ZERO_CHAR;
    if value == ZERO_CHAR {
      assert r[2] == 51 && r[3] == ZERO_CHAR;
      if Escapes(name, i + 3, st3, false) {
        EscapedAfter(name, i, st3, double, r, r3);
      } else {
        DecodeLengths(name, i + 4, Next(st3, name[i + 3]), false, double);
        assert r[4..] == r3[1..];
      }
    }
  }

  /** The second hex digit is the first byte of an escape. */
  lemma EscapedAfter(name: Name, i: nat, st3: State, double: bool, r: Name, r3: Name)
    requires i + 3 < |name| && Escapes(name, i + 3, st3, false) && st3 != ZeroX && st3 != ZeroXHexDigit
    requires name[i + 2] == 51 && StartsEscape(r) && r[3..] == r3 == Out(name, i + 3, st3, false, double)
    ensures Decode(r, double) != name[i..]
  {
    hide Out, Decode;
    FirstOut(name, i + 3, st3, false, double);
    var c := name[i + 3];
    var e, rest := Escaped(c), Out(name, i + 4, Any, false, double);
    assert r3 == e + rest && r[4..] == e[1..] + rest;
    HexNotX(e[2]);
    HexNotX(e[3]);
    var t := [e[3]] + rest;
    assert e[1..] + rest == [X_CHAR] + ([e[2]] + t);
    DecodeAt(r, double);
    DecodePlain(X_CHAR, [e[2]] + t, double);
    DecodePlain(e[2], t, double);
    var got := Decode(r, double);
    assert got[2] == e[2];
    assert name[i..][2] == 51 && name[i..][3] == c;
    if e[2] == 51 {
      assert c / 16 == 3 && !Alnum(c);
      assert e[3] != ZERO_CHAR;
      DecodePlain(e[3], rest, double);
      assert got[3] == e[3];
    }
  }

  lemma {:induction false} DecodesWrong(name: Name, i: nat, st: State, lastUnderscore: bool, double: bool)
    requires i <= |name| && st != ZeroXHexDigit && Clashes(name, i, st, lastUnderscore)
    ensures Decode(Out(name, i, st, lastUnderscore, double), double) != name[i..]
    decreases |name| - i
  {
    hide Out, Decode, ClashAt;
    if ClashAt(name, i, st) {
      DecodeClash(name, i, st, lastUnderscore, double);
    } else {
      DecodeStep(name, i, st, lastUnderscore, double);
      DecodesWrong(name, i + 1, StateAfter(name, i, st, lastUnderscore), UnderscoreAfter(name, i, st, lastUnderscore),
          double);
      assert name[i..] == [name[i]] + name[i + 1..];
    }
  }

  /** The decoder undoes mangling exactly for the names without a clash, in both modes. */
  lemma MangleDecodes(name: Name, double: bool)
    ensures Decode(Mangled(name, double), double) == name <==> !Clash(name)
  {
    hide Decode, Out;
    assert name[0..] == name;
    if Clash(name) { DecodesWrong(name, 0, Any, false, double); } else { DecodesBack(name, 0, Any, false, double); }
  }

  /** So distinct names without clashes get distinct identifiers. */
  lemma MangleInjective(a: Name, b: Name, double: bool)
    requires !Clash(a) && !Clash(b) && Mangled(a, double) == Mangled(b, double)
    ensures a == b
  {
    MangleDecodes(a, double);
    MangleDecodes(b, double);
  }

  /** Some other name, without a clash, has the same identifier. */
  ghost predicate Collides(name: Name, double: bool) {
    exists m: Name :: m != name && !Clash(m) && Mangled(m, double) == Mangled(name, double)
  }

  /** A name collides with one without a clash exactly if it has a clash itself and mangling what
      the decoder makes of its identifier gives that identifier again. */
  lemma CollidesExactly(name: Name, double: bool)
    ensures Collides(name, double) <==>
        Clash(name) && Mangled(Decode(Mangled(name, double), double), double) == Mangled(name, double)
  {
    hide Clash, Mangled, Decode;
    var s := Mangled(name, double);
    var d := Decode(s, double);
    MangleDecodes(name, double);
    MangleDecodes(d, double);
    if Collides(name, double) {
      var m: Name :| m != name && !Clash(m) && Mangled(m, double) == s;
      MangleDecodes(m, double);
    }
  }

  /** A clash needs the factor 00x. */
  predicate HasFactor(name: Name) {
    exists i :: 0 <= i && i + 2 < |name| && name[i] == ZERO_CHAR && name[i + 1] == ZERO_CHAR && name[i + 2] == X_CHAR
  }

  lemma {:induction false} ClashHasFactor(name: Name, i: nat, st: State, lastUnderscore: bool)
    requires i <= |name| && Clashes(name, i, st, lastUnderscore)
    requires st == Zero ==> i > 0 && name[i - 1] == ZERO_CHAR
    ensures HasFactor(name)
    decreases |name| - i
  {
    if ClashAt(name, i, st) {
      assert name[i - 1] == ZERO_CHAR && name[i - 1 + 1] == ZERO_CHAR && name[i - 1 + 2] == X_CHAR;
    } else {
      ClashHasFactor(name, i + 1, StateAfter(name, i, st, lastUnderscore),
          UnderscoreAfter(name, i, st, lastUnderscore));
    }
  }

  lemma NoFactorNoClash(name: Name)
    requires !HasFactor(name)
    ensures !Clash(name)
  {
    if Clash(name) { ClashHasFactor(name, 0, Any, false); }
  }

  lemma CollisionShort()
    ensures Mangled([48, 33], false) == [48, 48, 120, 50, 49] && !Clash([48, 33])
  {
    var a: Name := [48, 33];
    assert Out(a, 2, Any, false, false) == [];
    assert Out(a, 1, Zero, false, false) == [48, 120, 50, 49];
  }

  /** Two names with one identifier: "0!" and "00x21". */
  lemma Collision()
    ensures Mangled([48, 33], false) == Mangled([48, 48, 120, 50, 49], false) == [48, 48, 120, 50, 49]
    ensures Clash([48, 48, 120, 50, 49]) && !Clash([48, 33])
  {
    var b: Name := [48, 48, 120, 50, 49];
    CollisionShort();
    assert Out(b, 5, Any, false, false) == [];
    assert Out(b, 4, Any, false, false) == [49];
    assert Out(b, 3, Any, false, false) == [50, 49];
    assert Out(b, 2, Any, false, false) == [120, 50, 49];
    assert Out(b, 1, Zero, false, false) == [48, 120, 50, 49];
    assert ClashAt(b, 1, Zero);
  }

  // ----- export names -----

  /** "w2c_" */
  const PREFIX: Name := [119, 50, 99, 95]

  function ExportName(moduleName: Name, field: Name): Name {
    PREFIX + Mangled(moduleName, true) + [UNDERSCORE] + Mangled(field, false)
  }

  /** The first underscore that is not one of a pair. */
  function LoneUnderscore(s: Name): nat {
    if s == [] then 0
    else if s[0] == UNDERSCORE then
      if |s| >= 2 && s[1] == UNDERSCORE then 2 + LoneUnderscore(s[2..]) else 0
    else 1 + LoneUnderscore(s[1..])
  }

  lemma SkipPlain(a: Name, rest: Name)
    requires forall c | c in a :: c != UNDERSCORE
    ensures LoneUnderscore(a + rest) == |a| + LoneUnderscore(rest)
  {
    if a == [] { assert a + rest == rest; } else {
      assert (a + rest)[1..] == a[1..] + rest;
      assert a[0] in a && forall c | c in a[1..] :: c in a;
      SkipPlain(a[1..], rest);
    }
  }

  /** In a mangled module name underscores come in pairs, so the separator is the first lone one. */
  lemma {:induction false} SeparatorFound(name: Name, i: nat, st: State, lastUnderscore: bool, field: Name)
    requires i <= |name| && (field != [] ==> field[0] != UNDERSCORE)
    ensures LoneUnderscore(Out(name, i, st, lastUnderscore, true) + ([UNDERSCORE] + field))
        == |Out(name, i, st, lastUnderscore, true)|
    decreases |name| - i
  {
    hide Out;
    var tail := [UNDERSCORE] + field;
    if i == |name| {
      OutEnd(name, st, lastUnderscore, true);
      assert [] + tail == tail;
    } else {
      OutIs(name, i, st, lastUnderscore, true);
      var st1, last1 := StateAfter(name, i, st, lastUnderscore), UnderscoreAfter(name, i, st, lastUnderscore);
      var piece, next := Piece(name, i, st, lastUnderscore, true), Out(name, i + 1, st1, last1, true);
      SeparatorFound(name, i + 1, st1, last1, field);
      assert piece + next + tail == piece + (next + tail);
      if piece == [UNDERSCORE, UNDERSCORE] {
        assert (piece + (next + tail))[2..] == next + tail;
      } else {
        SkipPlain(piece, next + tail);
      }
    }
  }

  /** An export name can be split in only one way, whichever part is empty. */
  lemma ExportNameUnique(m1: Name, f1: Name, m2: Name, f2: Name)
    requires !Clash(m1) && !Clash(f1) && !Clash(m2) && !Clash(f2)
    requires ExportName(m1, f1) == ExportName(m2, f2)
    ensures m1 == m2 && f1 == f2
  {
    hide Out, Clash, LoneUnderscore;
    ExportSplits(m1, f1);
    ExportSplits(m2, f2);
    MangleInjective(m1, m2, true);
    MangleInjective(f1, f2, false);
  }

  lemma ExportSplits(m: Name, f: Name)
    ensures var s := ExportName(m, f)[4..];
            var k := LoneUnderscore(s);
            k < |s| && s[..k] == Mangled(m, true) && s[k + 1..] == Mangled(f, false)
  {
    hide Out;
    MangledIsIdentifier(f, false);
    if f == [] { OutEnd(f, Any, false, false); }
    SeparatorFound(m, 0, Any, false, Mangled(f, false));
    var s := ExportName(m, f)[4..];
    assert s == Mangled(m, true) + ([UNDERSCORE] + Mangled(f, false));
  }

  /** The identifier of an export whose names need no escapes: the prefix w2c_, the module's name
      with its underscores doubled, an underscore, and the field's name. */
  lemma ExportHarmless(m: Name, f: Name)
    requires Harmless(m) && Harmless(f)
    ensures ExportName(m, f) == [0x77, 0x32, 0x63, 0x5f] + Doubled(m) + [0x5f] + f
  {
    hide Mangled, Harmless;
    HarmlessKept(m);
    HarmlessKept(f);
  }
}

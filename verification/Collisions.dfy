/** When two names get the same identifier: somewhere the identifier can be read both as an
    escape and as the bytes it consists of, and read on from there. */
module Collisions {
  import opened Leb128
  import opened Mangling

  // ----- mangling from any point of a name -----

  /** Whether a byte is escaped: at the start or end of a name, in a state of the automaton. */
  predicate EscapesHere(c: byte, first: bool, end: bool, st: State, lastUnderscore: bool) {
    || Next(st, c) == ZeroXHexDigit
    || (c == UNDERSCORE && (first || end || lastUnderscore))
    || !(Alnum(c) || c == UNDERSCORE)
  }

  function PlainPiece(c: byte, double: bool): Name { if double && c == UNDERSCORE then [c, c] else [c] }

  /** The output for the rest of a name. */
  function Tail(n: Name, first: bool, st: State, lastUnderscore: bool, double: bool): Name {
    if n == [] then []
    else if EscapesHere(n[0], first, |n| == 1, st, lastUnderscore) then
      Escaped(n[0]) + Tail(n[1..], false, Any, false, double)
    else PlainPiece(n[0], double) + Tail(n[1..], false, Next(st, n[0]), n[0] == UNDERSCORE, double)
  }

  lemma {:induction false} TailIs(name: Name, i: nat, st: State, lastUnderscore: bool, double: bool)
    requires i <= |name|
    ensures Out(name, i, st, lastUnderscore, double) == Tail(name[i..], i == 0, st, lastUnderscore, double)
    decreases |name| - i
  {
    if i < |name| {
      hide Escaped, Next, Alnum;
      TailIs(name, i + 1, StateAfter(name, i, st, lastUnderscore), UnderscoreAfter(name, i, st, lastUnderscore),
          double);
      assert name[i..][1..] == name[i + 1..];
    }
  }

  lemma TailNone(n: Name, first: bool, st: State, lastUnderscore: bool, double: bool)
    ensures Tail(n, first, st, lastUnderscore, double) == [] <==> n == []
  {}

  // ----- reading an identifier -----

  /** The next bytes can be those of an unescaped byte. */
  predicate PlainRead(s: Name, first: bool, st: State, lastUnderscore: bool, double: bool)
    requires s != []
  {
    var piece := PlainPiece(s[0], double);
    piece <= s && !EscapesHere(s[0], first, s == piece, st, lastUnderscore)
  }

  /** The byte whose escape would come next. */
  function EscapedByte(s: Name): byte
    requires |s| >= 4 && Hex(s[2]) && Hex(s[3])
  {
    EscapeValue(s[2], s[3])
  }

  /** The next bytes can be an escape. */
  predicate EscapeRead(s: Name, first: bool, st: State, lastUnderscore: bool) {
    && |s| >= 4 && Hex(s[2]) && Hex(s[3]) && s[..4] == Escaped(EscapedByte(s))
    && EscapesHere(EscapedByte(s), first, |s| == 4, st, lastUnderscore)
  }

  /** Some name has this output. */
  predicate Readable(s: Name, first: bool, st: State, lastUnderscore: bool, double: bool)
    decreases |s|
  {
    || s == []
    || (PlainRead(s, first, st, lastUnderscore, double)
        && Readable(s[|PlainPiece(s[0], double)|..], false, Next(st, s[0]), s[0] == UNDERSCORE, double))
    || (EscapeRead(s, first, st, lastUnderscore) && Readable(s[4..], false, Any, false, double))
  }

  lemma EscapedValue(c: byte)
    ensures |Escaped(c)| == 4 && Hex(Escaped(c)[2]) && Hex(Escaped(c)[3]) && EscapedByte(Escaped(c)) == c
  {}

  /** The name that is read. */
  lemma {:induction false} ReadableName(s: Name, first: bool, st: State, lastUnderscore: bool, double: bool)
      returns (n: Name)
    requires Readable(s, first, st, lastUnderscore, double)
    ensures Tail(n, first, st, lastUnderscore, double) == s
    decreases |s|
  {
    hide EscapesHere, Escaped, Next, Hex, EscapedByte;
    if s == [] {
      n := [];
    } else if PlainRead(s, first, st, lastUnderscore, double)
        && Readable(s[|PlainPiece(s[0], double)|..], false, Next(st, s[0]), s[0] == UNDERSCORE, double) {
      hide Readable, PlainPiece;
      var piece := PlainPiece(s[0], double);
      assert s == piece + s[|piece|..];
      var rest := ReadableName(s[|piece|..], false, Next(st, s[0]), s[0] == UNDERSCORE, double);
      n := [s[0]] + rest;
      PlainFirst(s[0], rest, first, st, lastUnderscore, double);
    } else {
      assert s == s[..4] + s[4..];
      hide Readable;
      var rest := ReadableName(s[4..], false, Any, false, double);
      n := [EscapedByte(s)] + rest;
      EscapedFirst(EscapedByte(s), rest, first, st, lastUnderscore, double);
    }
  }

  /** A name that begins with an unescaped byte. */
  lemma PlainFirst(c: byte, rest: Name, first: bool, st: State, lastUnderscore: bool, double: bool)
    ensures var t := Tail(rest, false, Next(st, c), c == UNDERSCORE, double);
            !EscapesHere(c, first, t == [], st, lastUnderscore) ==>
              Tail([c] + rest, first, st, lastUnderscore, double) == PlainPiece(c, double) + t
  {
    hide EscapesHere, Escaped, Next;
    TailNone(rest, false, Next(st, c), c == UNDERSCORE, double);
    assert ([c] + rest)[1..] == rest;
  }

  lemma EscapedFirst(c: byte, rest: Name, first: bool, st: State, lastUnderscore: bool, double: bool)
    ensures var t := Tail(rest, false, Any, false, double);
            EscapesHere(c, first, t == [], st, lastUnderscore) ==>
              Tail([c] + rest, first, st, lastUnderscore, double) == Escaped(c) + t
  {
    hide EscapesHere, Escaped, Next;
    TailNone(rest, false, Any, false, double);
    assert ([c] + rest)[1..] == rest;
  }

  /** What a name is read as first. */
  lemma TailReads(n: Name, first: bool, st: State, lastUnderscore: bool, double: bool)
    requires n != []
    ensures var s := Tail(n, first, st, lastUnderscore, double);
            s != [] &&
            if EscapesHere(n[0], first, |n| == 1, st, lastUnderscore) then
              EscapeRead(s, first, st, lastUnderscore) && EscapedByte(s) == n[0]
                  && s[4..] == Tail(n[1..], false, Any, false, double)
            else
              PlainRead(s, first, st, lastUnderscore, double) && s[0] == n[0]
                  && s[|PlainPiece(s[0], double)|..] == Tail(n[1..], false, Next(st, n[0]), n[0] == UNDERSCORE, double)
  {
    hide EscapesHere, Escaped, Next, Hex, EscapedByte;
    var c := n[0];
    if EscapesHere(c, first, |n| == 1, st, lastUnderscore) {
      var t := Tail(n[1..], false, Any, false, double);
      TailNone(n[1..], false, Any, false, double);
      EscapedValue(c);
      var s := Escaped(c) + t;
      assert s[..4] == Escaped(c) && s[2] == Escaped(c)[2] && s[3] == Escaped(c)[3] && s[4..] == t;
      SameByte(s, Escaped(c));
    } else {
      TailNone(n[1..], false, Next(st, c), c == UNDERSCORE, double);
    }
  }

  lemma SameByte(s: Name, e: Name)
    requires |s| >= 4 && |e| >= 4 && Hex(s[2]) && Hex(s[3]) && s[2] == e[2] && s[3] == e[3]
    ensures EscapedByte(s) == EscapedByte(e)
  {}

  lemma {:induction false} NameReadable(n: Name, first: bool, st: State, lastUnderscore: bool, double: bool)
    ensures Readable(Tail(n, first, st, lastUnderscore, double), first, st, lastUnderscore, double)
    decreases |n|
  {
    if n != [] {
      hide EscapesHere, Escaped, Next, Hex, EscapedByte, EscapeRead, PlainRead;
      TailReads(n, first, st, lastUnderscore, double);
      if EscapesHere(n[0], first, |n| == 1, st, lastUnderscore) {
        NameReadable(n[1..], false, Any, false, double);
      } else {
        NameReadable(n[1..], false, Next(st, n[0]), n[0] == UNDERSCORE, double);
      }
    }
  }

  // ----- ambiguous identifiers -----

  /** At some byte of the name its output can be read the other way, as an escape instead of a
      byte or as bytes instead of an escape, and read on from there. */
  predicate Ambiguous(n: Name, first: bool, st: State, lastUnderscore: bool, double: bool) {
    n != [] &&
    var s := Tail(n, first, st, lastUnderscore, double);
    if EscapesHere(n[0], first, |n| == 1, st, lastUnderscore) then
      || (s != [] && PlainRead(s, first, st, lastUnderscore, double)
          && Readable(s[|PlainPiece(s[0], double)|..], false, Next(st, s[0]), s[0] == UNDERSCORE, double))
      || Ambiguous(n[1..], false, Any, false, double)
    else
      || (EscapeRead(s, first, st, lastUnderscore) && Readable(s[4..], false, Any, false, double))
      || Ambiguous(n[1..], false, Next(st, n[0]), n[0] == UNDERSCORE, double)
  }

  /** Another name with the same output. */
  lemma {:induction false} AmbiguousName(n: Name, first: bool, st: State, lastUnderscore: bool, double: bool)
      returns (m: Name)
    requires Ambiguous(n, first, st, lastUnderscore, double)
    ensures m != n && Tail(m, first, st, lastUnderscore, double) == Tail(n, first, st, lastUnderscore, double)
    decreases |n|
  {
    hide Tail, Readable, Escaped, Next, Hex, EscapedByte, EscapesHere;
    var s := Tail(n, first, st, lastUnderscore, double);
    TailReads(n, first, st, lastUnderscore, double);
    if EscapesHere(n[0], first, |n| == 1, st, lastUnderscore) {
      if PlainRead(s, first, st, lastUnderscore, double)
          && Readable(s[|PlainPiece(s[0], double)|..], false, Next(st, s[0]), s[0] == UNDERSCORE, double) {
        var rest := ReadableName(s[|PlainPiece(s[0], double)|..], false, Next(st, s[0]), s[0] == UNDERSCORE, double);
        m := [s[0]] + rest;
        PlainFirst(s[0], rest, first, st, lastUnderscore, double);
        BothWays(n[0], s, first, |n| == 1, s == PlainPiece(s[0], double), st, lastUnderscore);
      } else {
        var rest := AmbiguousName(n[1..], false, Any, false, double);
        m := [n[0]] + rest;
        EscapedFirst(n[0], rest, first, st, lastUnderscore, double);
        EscapedFirst(n[0], n[1..], first, st, lastUnderscore, double);
        TailNone(n[1..], false, Any, false, double);
        assert m[1..] == rest && n == [n[0]] + n[1..];
      }
    } else {
      if EscapeRead(s, first, st, lastUnderscore) && Readable(s[4..], false, Any, false, double) {
        var rest := ReadableName(s[4..], false, Any, false, double);
        m := [EscapedByte(s)] + rest;
        EscapedFirst(EscapedByte(s), rest, first, st, lastUnderscore, double);
        BothWays(EscapedByte(s), s, first, |s| == 4, |n| == 1, st, lastUnderscore);
      } else {
        var rest := AmbiguousName(n[1..], false, Next(st, n[0]), n[0] == UNDERSCORE, double);
        m := [n[0]] + rest;
        PlainFirst(n[0], rest, first, st, lastUnderscore, double);
        PlainFirst(n[0], n[1..], first, st, lastUnderscore, double);
        TailNone(n[1..], false, Next(st, n[0]), n[0] == UNDERSCORE, double);
        assert m[1..] == rest && n == [n[0]] + n[1..];
      }
    }
  }

  /** An escape begins with a zero, which is escaped wherever it stands in the name or nowhere. */
  lemma BothWays(c: byte, s: Name, first: bool, end: bool, end1: bool, st: State, lastUnderscore: bool)
    requires |s| >= 4 && s[0] == Escaped(c)[0]
    requires EscapesHere(c, first, end, st, lastUnderscore) && !EscapesHere(s[0], first, end1, st, lastUnderscore)
    ensures c != s[0]
  {}

  lemma {:induction false} SharedAmbiguous(n: Name, m: Name, first: bool, st: State, lastUnderscore: bool, double: bool)
    requires m != n && Tail(m, first, st, lastUnderscore, double) == Tail(n, first, st, lastUnderscore, double)
    ensures Ambiguous(n, first, st, lastUnderscore, double)
    decreases |n|
  {
    hide Tail, Readable, Escaped, Next, Hex, EscapedByte, EscapesHere, PlainRead, EscapeRead;
    TailNone(n, first, st, lastUnderscore, double);
    TailNone(m, first, st, lastUnderscore, double);
    TailReads(n, first, st, lastUnderscore, double);
    TailReads(m, first, st, lastUnderscore, double);
    assert n == [n[0]] + n[1..] && m == [m[0]] + m[1..];
    if EscapesHere(m[0], first, |m| == 1, st, lastUnderscore) {
      NameReadable(m[1..], false, Any, false, double);
      if EscapesHere(n[0], first, |n| == 1, st, lastUnderscore) {
        SharedAmbiguous(n[1..], m[1..], false, Any, false, double);
      }
    } else {
      NameReadable(m[1..], false, Next(st, m[0]), m[0] == UNDERSCORE, double);
      if !EscapesHere(n[0], first, |n| == 1, st, lastUnderscore) {
        SharedAmbiguous(n[1..], m[1..], false, Next(st, n[0]), n[0] == UNDERSCORE, double);
      }
    }
  }

  /** A name shares its identifier with a different name exactly if the identifier is ambiguous. */
  lemma SharedExactly(name: Name, double: bool)
    ensures (exists m: Name :: m != name && Mangled(m, double) == Mangled(name, double))
        <==> Ambiguous(name, true, Any, false, double)
  {
    hide Tail, Ambiguous, Out;
    WholeTail(name, double);
    if Ambiguous(name, true, Any, false, double) {
      var m := AmbiguousName(name, true, Any, false, double);
      WholeTail(m, double);
      assert m != name && Mangled(m, double) == Mangled(name, double);
    }
    if exists m: Name :: m != name && Mangled(m, double) == Mangled(name, double) {
      var m: Name :| m != name && Mangled(m, double) == Mangled(name, double);
      WholeTail(m, double);
      SharedAmbiguous(name, m, true, Any, false, double);
    }
  }

  lemma WholeTail(name: Name, double: bool)
    ensures Mangled(name, double) == Tail(name, true, Any, false, double)
  {
    TailIs(name, 0, Any, false, double);
    assert name[0..] == name;
  }
}

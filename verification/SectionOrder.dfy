/** Which files the section loop accepts, from the file alone: one that is cut into sections
    which stand there with their sizes, are well read, and come in the order that the
    WebAssembly Core Specification and its extensions require. */
module SectionOrder {
  import opened Ir
  import opened Leb128
  import opened Sections

  // ----- the required order -----

  /** Type, import, function, table, memory, tag, global, export, start, element, data count, code,
      data. */
  const REQUIRED: seq<nat> := [1, 2, 3, 4, 5, 13, 6, 7, 8, 9, 12, 10, 11]

  /** `a` is what is left of `b` when some of its elements are left out. */
  predicate Sub(a: seq<nat>, b: seq<nat>)
    decreases b
  {
    a == [] || (b != [] && if a[0] == b[0] then Sub(a[1..], b[1..]) else Sub(a, b[1..]))
  }

  /** The codes of the sections that are not custom ones. */
  function Known(spans: seq<Span>): seq<nat>
    decreases |spans|
  {
    if spans == [] then []
    else (if spans[0].code == CUSTOM_CODE then [] else [spans[0].code]) + Known(spans[1..])
  }

  lemma PlaceOf(i: nat)
    requires i < |REQUIRED|
    ensures 0 < REQUIRED[i] < SECTION_COUNT && Order(REQUIRED[i]) == i + 1
  {}

  lemma PlaceOfCode(code: nat)
    requires 0 < code < SECTION_COUNT
    ensures 0 < Order(code) <= |REQUIRED| && REQUIRED[Order(code) - 1] == code
  {}

  /** A code can come next if its place is not behind us, and then what may follow is what is
      required behind it. */
  lemma {:induction false} SubFirst(code: nat, rest: seq<nat>, k: nat)
    requires 0 < code < SECTION_COUNT && k <= |REQUIRED|
    ensures Sub([code] + rest, REQUIRED[k..]) <==> Order(code) > k && Sub(rest, REQUIRED[Order(code)..])
    decreases |REQUIRED| - k
  {
    hide Order;
    PlaceOfCode(code);
    var all := [code] + rest;
    if k < |REQUIRED| {
      PlaceOf(k);
      assert REQUIRED[k..][0] == REQUIRED[k] && REQUIRED[k..][1..] == REQUIRED[k + 1..];
      assert all[1..] == rest;
      if REQUIRED[k] != code {
        SubFirst(code, rest, k + 1);
        if Order(code) == k + 1 { assert false; }
      }
    } else {
      assert REQUIRED[k..] == [];
    }
  }

  function Behind(last: Option<nat>): seq<nat>
    requires last.Some? ==> 0 < last.value < SECTION_COUNT
  {
    if last.None? then REQUIRED else PlaceOfCode(last.value); REQUIRED[Order(last.value)..]
  }

  /** The order that the loop checks is that of the list. */
  lemma {:induction false} InOrderIs(spans: seq<Span>, last: Option<nat>)
    requires last.Some? ==> 0 < last.value < SECTION_COUNT
    requires forall i | 0 <= i < |spans| :: spans[i].code < SECTION_COUNT
    ensures InOrder(spans, last) <==> Sub(Known(spans), Behind(last))
    decreases |spans|
  {
    hide Order, Sub;
    if spans == [] {
      SubNone(Behind(last));
    } else {
      var (s, rest) := (spans[0], spans[1..]);
      assert forall i | 0 <= i < |rest| :: rest[i] == spans[i + 1];
      if s.code == CUSTOM_CODE {
        assert [] + Known(rest) == Known(rest);
        InOrderIs(rest, last);
      } else {
        InOrderIs(rest, Some(s.code));
        assert REQUIRED[0..] == REQUIRED;
        PlaceOfCode(s.code);
        if last.Some? { PlaceOfCode(last.value); }
        SubFirst(s.code, Known(rest), if last.None? then 0 else Order(last.value));
      }
    }
  }

  lemma SubNone(b: seq<nat>)
    ensures Sub([], b)
  {}

  // ----- acceptance -----

  /** A name section that is read. */
  predicate Names(o: Options, p: seq<byte>, s: Span) {
    s.code == CUSTOM_CODE && s.end <= |p| && ReadCustom(o, p, s.body, s.end).names
  }

  predicate Enabled(o: Options, code: nat) { (code == 13 ==> o.exceptions) && (code == 12 ==> o.bulkMemory) }

  /** No section but custom ones comes behind a name section; `names` if there was one before. */
  predicate NamesLast(o: Options, p: seq<byte>, spans: seq<Span>, names: bool) {
    && (names ==> forall j | 0 <= j < |spans| :: spans[j].code == CUSTOM_CODE)
    && forall i, j | 0 <= i < j < |spans| :: Names(o, p, spans[i]) ==> spans[j].code == CUSTOM_CODE
  }

  /** What a file must be for the loop to accept it as these sections. */
  predicate Acceptable(o: Options, p: seq<byte>, cur: Cursor, spans: seq<Span>) {
    && Tiles(spans, cur.offset, |p|)
    && (forall i | 0 <= i < |spans| ::
          InFile(p, spans[i]) && WellRead(o, p, spans[i]) && Enabled(o, spans[i].code))
    && InOrder(spans, cur.last) && NamesLast(o, p, spans, cur.names)
  }

  /** The codes seen are not behind the last one. */
  predicate SeenOk(cur: Cursor) {
    && (cur.last.None? ==> cur.seen == {})
    && (cur.last.Some? ==>
          0 < cur.last.value < SECTION_COUNT && forall c | c in cur.seen :: Order(c) <= Order(cur.last.value))
  }

  /** The section can be the next one. */
  predicate Suits(o: Options, p: seq<byte>, cur: Cursor, s: Span) {
    && s.start == cur.offset && InFile(p, s) && WellRead(o, p, s) && Enabled(o, s.code)
    && (s.code != CUSTOM_CODE ==> !cur.names && (cur.last.Some? ==> Order(s.code) > Order(cur.last.value)))
  }

  function After(o: Options, p: seq<byte>, cur: Cursor, s: Span): Cursor {
    Cursor(s.end, if s.code == CUSTOM_CODE then cur.last else Some(s.code),
        if s.code == CUSTOM_CODE then cur.seen else cur.seen + {s.code}, cur.names || Names(o, p, s), true)
  }

  /** A turn goes well exactly if the section at the cursor suits. */
  lemma TurnExactly(o: Options, p: seq<byte>, cur: Cursor, s: Span)
    requires cur.offset < |p| && cur.ok && SeenOk(cur)
    ensures Suits(o, p, cur, s) <==> (var t := ReadSection(o, p, cur); t.Next? && t.cur.ok && t.span == s)
    ensures Suits(o, p, cur, s) ==> ReadSection(o, p, cur).cur == After(o, p, cur, s)
  {
    hide ReadU32, Order, ReadCustom;
    Immediates.ReadU32Forward(p, cur.offset + 1);
  }

  lemma AfterSeen(o: Options, p: seq<byte>, cur: Cursor, s: Span)
    requires SeenOk(cur) && Suits(o, p, cur, s)
    ensures SeenOk(After(o, p, cur, s))
  {
    hide ReadU32, Order, ReadCustom;
  }

  lemma AcceptableFirst(o: Options, p: seq<byte>, cur: Cursor, spans: seq<Span>)
    requires cur.offset < |p| && spans != []
    ensures Acceptable(o, p, cur, spans)
        <==> Suits(o, p, cur, spans[0]) && Acceptable(o, p, After(o, p, cur, spans[0]), spans[1..])
  {
    hide ReadU32, Order, ReadCustom, InFile, WellRead, Enabled;
    var rest := spans[1..];
    assert forall i | 0 <= i < |rest| :: rest[i] == spans[i + 1];
    if Suits(o, p, cur, spans[0]) && Acceptable(o, p, After(o, p, cur, spans[0]), rest) {
      forall i | 0 <= i < |spans|
        ensures InFile(p, spans[i]) && WellRead(o, p, spans[i]) && Enabled(o, spans[i].code)
      {
        if i > 0 { assert spans[i] == rest[i - 1]; }
      }
      NamesFirst(o, p, spans, cur.names);
    }
    if Acceptable(o, p, cur, spans) { NamesFirst(o, p, spans, cur.names); }
  }

  lemma NamesFirst(o: Options, p: seq<byte>, spans: seq<Span>, names: bool)
    requires spans != []
    ensures NamesLast(o, p, spans, names) <==>
        (spans[0].code != CUSTOM_CODE ==> !names) && NamesLast(o, p, spans[1..], names || Names(o, p, spans[0]))
  {
    hide Names;
    var rest := spans[1..];
    assert forall i | 0 <= i < |rest| :: rest[i] == spans[i + 1];
    assert forall i | 0 < i < |spans| :: spans[i] == rest[i - 1];
  }

  /** From any point of the loop: it succeeds and goes through these sections exactly if the rest
      of the file is acceptable as these sections. */
  lemma {:induction false} AcceptsFrom(o: Options, p: seq<byte>, cur: Cursor, spans: seq<Span>)
    requires cur.offset <= |p| && cur.ok && SeenOk(cur)
    ensures ReadAll(o, p, cur) == (true, spans) <==> Acceptable(o, p, cur, spans)
    decreases |p| - cur.offset
  {
    hide ReadSection, Acceptable, Suits, SeenOk;
    if cur.offset == |p| {
      NothingLeft(o, p, cur, spans);
    } else if spans == [] {
      assert !Tiles(spans, cur.offset, |p|);
      SomeSections(o, p, cur);
    } else {
      var s := spans[0];
      TurnExactly(o, p, cur, s);
      AcceptableFirst(o, p, cur, spans);
      if Suits(o, p, cur, s) {
        AfterSeen(o, p, cur, s);
        SuitsInside(o, p, cur, s);
        AcceptsFrom(o, p, After(o, p, cur, s), spans[1..]);
        assert spans == [s] + spans[1..];
        var r := ReadAll(o, p, After(o, p, cur, s));
        assert ([s] + r.1)[1..] == r.1;
      } else {
        Unsuited(o, p, cur, s, spans);
      }
    }
  }

  lemma SuitsInside(o: Options, p: seq<byte>, cur: Cursor, s: Span)
    requires Suits(o, p, cur, s)
    ensures cur.offset < s.end <= |p|
  {
    hide ReadU32, Order, ReadCustom;
  }

  lemma NothingLeft(o: Options, p: seq<byte>, cur: Cursor, spans: seq<Span>)
    requires cur.offset == |p| && cur.ok
    ensures ReadAll(o, p, cur) == (true, []) && (Acceptable(o, p, cur, spans) <==> spans == [])
  {
    hide ReadU32, ReadCustom, WellRead;
  }

  lemma SomeSections(o: Options, p: seq<byte>, cur: Cursor)
    requires cur.offset < |p|
    ensures ReadAll(o, p, cur) != (true, []) && !Acceptable(o, p, cur, [])
  {
    hide ReadSection;
  }

  /** Where the section at the cursor does not suit, the run fails or finds another one. */
  lemma Unsuited(o: Options, p: seq<byte>, cur: Cursor, s: Span, spans: seq<Span>)
    requires cur.offset < |p| && spans != [] && spans[0] == s
    requires var t := ReadSection(o, p, cur); !(t.Next? && t.cur.ok && t.span == s)
    ensures ReadAll(o, p, cur) != (true, spans)
  {
    hide ReadSection;
    match ReadSection(o, p, cur)
    case Abort =>
    case Next(span, next) =>
      if ReadAll(o, p, next).0 { GoesWell(o, p, next); }
      assert ([span] + ReadAll(o, p, next).1)[0] == span;
  }

  const START := Cursor(8, None, {}, false, true)

  /** A file is accepted as these sections exactly if they follow one another from behind the
      header to its end, each stands there with its code and size and is well read, those that
      need a feature have it, the codes that are not custom are part of the required list in
      its order, and nothing but custom sections comes behind a name section. */
  lemma AcceptsExactly(o: Options, p: seq<byte>, spans: seq<Span>)
    requires |p| >= 8
    ensures ReadAll(o, p, START) == (true, spans) <==>
              && Tiles(spans, 8, |p|)
              && (forall i | 0 <= i < |spans| ::
                    InFile(p, spans[i]) && WellRead(o, p, spans[i]) && Enabled(o, spans[i].code))
              && Sub(Known(spans), REQUIRED) && NamesLast(o, p, spans, false)
  {
    hide ReadAll, InFile, WellRead, Sub, Order;
    AcceptsFrom(o, p, START, spans);
    if forall i | 0 <= i < |spans| :: InFile(p, spans[i]) && WellRead(o, p, spans[i]) && Enabled(o, spans[i].code) {
      forall i | 0 <= i < |spans| ensures spans[i].code < SECTION_COUNT { KnownCode(p, spans[i]); }
      InOrderIs(spans, None);
    }
  }

  lemma KnownCode(p: seq<byte>, s: Span)
    requires InFile(p, s)
    ensures s.code < SECTION_COUNT
  {}

  // ----- files with errors -----

  /** A file cut into sections that may come as they do, whatever is in them. */
  predicate LaidOut(o: Options, p: seq<byte>, cur: Cursor, spans: seq<Span>) {
    && Tiles(spans, cur.offset, |p|)
    && (forall i | 0 <= i < |spans| :: InFile(p, spans[i]) && Enabled(o, spans[i].code))
    && InOrder(spans, cur.last) && NamesLast(o, p, spans, cur.names)
  }

  /** An error at which reading ends: the first one, if that is asked for, unless it is in a custom
      section and those may fail. */
  predicate Stops(o: Options, p: seq<byte>, s: Span) {
    o.stopOnFirstError && (s.code == CUSTOM_CODE ==> o.failOnCustomSectionError) && !WellRead(o, p, s)
  }

  /** The sections before the first one that stops the reader. */
  function Visited(o: Options, p: seq<byte>, spans: seq<Span>): seq<Span> {
    if spans == [] || Stops(o, p, spans[0]) then [] else [spans[0]] + Visited(o, p, spans[1..])
  }

  lemma TurnLaidOut(o: Options, p: seq<byte>, cur: Cursor, spans: seq<Span>)
    requires cur.offset < |p| && SeenOk(cur) && LaidOut(o, p, cur, spans) && spans != []
    ensures var s := spans[0];
            ReadSection(o, p, cur) == if Stops(o, p, s) then Abort
              else Next(s, After(o, p, cur, s).(ok := cur.ok && WellRead(o, p, s)))
  {
    hide ReadU32, Order, ReadCustom;
    Immediates.ReadU32Forward(p, cur.offset + 1);
  }

  lemma LaidOutRest(o: Options, p: seq<byte>, cur: Cursor, spans: seq<Span>)
    requires SeenOk(cur) && LaidOut(o, p, cur, spans) && spans != []
    ensures cur.offset < spans[0].end <= |p|
    ensures forall ok :: var next := After(o, p, cur, spans[0]).(ok := ok);
              SeenOk(next) && LaidOut(o, p, next, spans[1..])
  {
    hide ReadU32, Order, ReadCustom, Enabled, Names;
    var rest := spans[1..];
    assert forall i | 0 <= i < |rest| :: rest[i] == spans[i + 1];
    NamesFirst(o, p, spans, cur.names);
  }

  /** The sections of such a file are visited in turn up to the first error that stops the reader, or
      all of them, and the verdict is whether all are well read: errors that do not stop the reader
      are neither lost nor in the way of what comes behind them. */
  lemma {:induction false} Visits(o: Options, p: seq<byte>, cur: Cursor, spans: seq<Span>)
    requires cur.offset <= |p| && SeenOk(cur) && LaidOut(o, p, cur, spans)
    ensures ReadAll(o, p, cur).0 <==> cur.ok && forall i | 0 <= i < |spans| :: WellRead(o, p, spans[i])
    ensures ReadAll(o, p, cur).1 == Visited(o, p, spans)
    decreases |p| - cur.offset
  {
    hide ReadSection, SeenOk, WellRead, InFile, InOrder, NamesLast, Enabled;
    if spans != [] {
      var s := spans[0];
      LaidOutRest(o, p, cur, spans);
      TurnLaidOut(o, p, cur, spans);
      if !Stops(o, p, s) {
        Visits(o, p, After(o, p, cur, s).(ok := cur.ok && WellRead(o, p, s)), spans[1..]);
        assert forall i | 0 < i < |spans| :: spans[i] == spans[1..][i - 1];
        assert forall i | 0 <= i < |spans| - 1 :: spans[1..][i] == spans[i + 1];
      }
    }
  }
}

/** The reader's loop over sections: cursor discipline, order, and the custom-section backtrack.
    What is inside a section is read by an arbitrary function, so the results hold for every
    reader of section contents. */
module Sections {
  import opened Ir
  import opened Leb128
  import opened Immediates

  const SECTION_COUNT: nat := 14

  const CUSTOM_CODE: nat := 0

  /** The position of a section kind in the required order. */
  function Order(code: nat): nat {
    match code
    case 13 => 6        // Tag, between Memory and Global
    case 6 => 7
    case 7 => 8
    case 8 => 9
    case 9 => 10
    case 12 => 11       // DataCount, between Elem and Code
    case 10 => 12
    case 11 => 13
    case _ => code
  }

  lemma OrderInjective(a: nat, b: nat)
    requires a < SECTION_COUNT && b < SECTION_COUNT && Order(a) == Order(b)
    ensures a == b
  {}

  /** Success and the cursor after reading contents from a position up to an end. */
  datatype Content = Content(ok: bool, offset: nat)

  /** `known` reads the contents of a non-custom section; `validName` is the check on a custom
      section's name, `handles` whether the reader knows it, `named` how it then reads it. */
  datatype Options = Options(
    stopOnFirstError: bool, failOnCustomSectionError: bool, readDebugNames: bool, exceptions: bool, bulkMemory: bool,
    known: (nat, nat, nat) -> Content,
    validName: seq<byte> -> bool, handles: seq<byte> -> bool, named: (seq<byte>, nat, nat) -> Content)

  /** "name" */
  const NAME_SECTION: seq<byte> := [110, 97, 109, 101]

  datatype Custom = Custom(content: Content, names: bool)

  /** ReadCustomSection. After the generic callback has seen the rest of the section the cursor
      goes back to just after the name. */
  function ReadCustom(o: Options, p: seq<byte>, body: nat, end: nat): Custom
    requires end <= |p|
  {
    match ReadU32(p[..end], body)
    case None => Custom(Content(false, body), false)
    case Some(n) =>
      if n.value < 0 || n.next + n.value > end then Custom(Content(false, n.next), false)
      else
        var name := p[n.next..n.next + n.value];
        var at := n.next + n.value;
        if !o.validName(name) then Custom(Content(false, at), false)
        else if o.readDebugNames && name == NAME_SECTION then
          var c := o.named(name, at, end); Custom(c, c.ok)
        else if o.handles(name) then Custom(o.named(name, at, end), false)
        else Custom(Content(true, end), false)
  }

  /** What becomes of a custom section whose name stands at its beginning. */
  lemma CustomMeans(o: Options, p: seq<byte>, body: nat, end: nat, name: seq<byte>, next: nat)
    requires end <= |p| && ReadU32(p[..end], body) == Some(Parsed(|name|, next))
    requires next + |name| <= end && p[next..next + |name|] == name
    ensures var at := next + |name|;
            ReadCustom(o, p, body, end) ==
              if !o.validName(name) then Custom(Content(false, at), false)
              else if o.readDebugNames && name == [0x6e, 0x61, 0x6d, 0x65] then
                Custom(o.named(name, at, end), o.named(name, at, end).ok)
              else Custom(if o.handles(name) then o.named(name, at, end) else Content(true, end), false)
  {
    hide ReadU32;
  }

  /** A custom section without a name that fits into it fails. */
  lemma CustomFails(o: Options, p: seq<byte>, body: nat, end: nat)
    requires end <= |p|
    requires var n := ReadU32(p[..end], body); n.None? || n.value.value < 0 || n.value.next + n.value.value > end
    ensures !ReadCustom(o, p, body, end).content.ok && !ReadCustom(o, p, body, end).names
  {
    hide ReadU32;
  }

  /** The reader between two sections. */
  datatype Cursor = Cursor(offset: nat, last: Option<nat>, seen: set<nat>, names: bool, ok: bool)

  /** A section read: its code, and where its header, contents and end are. */
  datatype Span = Span(code: nat, start: nat, body: nat, end: nat)

  /** What one turn of the loop does: an immediate error, or a section and the state after it. */
  datatype Turn = Abort | Next(span: Span, cur: Cursor)

  function ReadSection(o: Options, p: seq<byte>, cur: Cursor): (t: Turn)
    requires cur.offset < |p|
    ensures t.Next? ==> t.cur.offset > cur.offset
  {
    var code: nat := p[cur.offset];
    match ReadU32(p, cur.offset + 1)
    case None => Abort
    case Some(size) =>
      if size.value < 0 || size.next <= cur.offset then Abort
      else
        var body, end := size.next, size.next + size.value;
        var span := Span(code, cur.offset, body, end);
        if code >= SECTION_COUNT then
          if o.stopOnFirstError then Abort else Next(span, cur.(offset := end, ok := false))
        else if code != CUSTOM_CODE && code in cur.seen then Abort
        else if end > |p| then Abort
        else if cur.last.Some? && code != CUSTOM_CODE && Order(code) <= Order(cur.last.value) then Abort
        else if cur.names && code != CUSTOM_CODE then Abort
        else if code == 13 && !o.exceptions then Abort
        else if code == 12 && !o.bulkMemory then Abort
        else
          var custom := code == CUSTOM_CODE;
          var r := if custom then ReadCustom(o, p, body, end) else Custom(o.known(code, body, end), false);
          var unfinished := r.content.ok && r.content.offset != end;
          var failed := !r.content.ok || unfinished;
          var counts := !custom || o.failOnCustomSectionError || unfinished;
          var stop := o.stopOnFirstError && (!custom || o.failOnCustomSectionError);
          if failed && stop then Abort
          else
            Next(span, Cursor(end, if custom then cur.last else Some(code),
                if custom then cur.seen else cur.seen + {code},
                              cur.names || r.names, cur.ok && !(failed && counts)))
  }

  /** ReadSections: whether it succeeds, and the sections it went through. */
  function ReadAll(o: Options, p: seq<byte>, cur: Cursor): (bool, seq<Span>)
    decreases |p| - cur.offset
  {
    if cur.offset >= |p| then (cur.ok, [])
    else match ReadSection(o, p, cur)
         case Abort => (false, [])
         case Next(span, next) => var r := ReadAll(o, p, next); (r.0, [span] + r.1)
  }

  // ----- tiling -----

  /** The spans follow one another from `from` and end exactly at `to`. */
  predicate Tiles(spans: seq<Span>, from: nat, to: nat)
    decreases |spans|
  {
    if spans == [] then from == to
    else spans[0].start == from && Tiles(spans[1..], spans[0].end, to)
  }

  /** A section as it stands in the file: a known code and a length field with the size of its
      contents. */
  predicate InFile(p: seq<byte>, s: Span) {
    && s.start < s.body <= s.end <= |p| && s.code < SECTION_COUNT && p[s.start] == s.code
    && ReadU32(p, s.start + 1) == Some(Parsed(s.end - s.body, s.body))
  }

  /** Non-custom sections come in strictly increasing order, after `last`. */
  predicate InOrder(spans: seq<Span>, last: Option<nat>)
    decreases |spans|
  {
    spans == [] ||
    (if spans[0].code == CUSTOM_CODE then InOrder(spans[1..], last)
     else (last.Some? ==> Order(spans[0].code) > Order(last.value)) && InOrder(spans[1..], Some(spans[0].code)))
  }

  /** In every run that succeeds the sections cover the rest of the data with no gap or overlap,
      each as its header says, in order. */
  lemma {:induction false} SuccessTiles(o: Options, p: seq<byte>, cur: Cursor)
    requires ReadAll(o, p, cur).0 && cur.offset <= |p|
    ensures cur.ok
    ensures var spans := ReadAll(o, p, cur).1;
            Tiles(spans, cur.offset, |p|) && InOrder(spans, cur.last) && forall s | s in spans :: InFile(p, s)
    decreases |p| - cur.offset
  {
    hide ReadU32, Order;
    if cur.offset < |p| {
      var t := ReadSection(o, p, cur);
      ReadU32Forward(p, cur.offset + 1);
      GoesWell(o, p, cur);
      SuccessTiles(o, p, t.cur);
    }
  }

  /** Results never turn from an error to success, so a section with an unknown code, or one
      that reaches beyond the data, is in no successful run. */
  lemma {:induction false} GoesWell(o: Options, p: seq<byte>, cur: Cursor)
    requires ReadAll(o, p, cur).0
    ensures cur.ok
    decreases |p| - cur.offset
  {
    hide ReadU32, Order;
    if cur.offset < |p| {
      match ReadSection(o, p, cur)
      case Abort =>
      case Next(span, next) => GoesWell(o, p, next);
    }
  }

  /** A section is read without an error, or with one that was tolerated: the contents of a custom
      section fail and such failures do not count. Contents that are read with success but not
      to their end always count. */
  predicate WellRead(o: Options, p: seq<byte>, s: Span) {
    && s.code < SECTION_COUNT && s.end <= |p|
    && var c := if s.code == CUSTOM_CODE then ReadCustom(o, p, s.body, s.end).content
                else o.known(s.code, s.body, s.end);
       if c.ok then c.offset == s.end else s.code == CUSTOM_CODE && !o.failOnCustomSectionError
  }

  /** One turn of the loop finds an error, or the section is well read. */
  lemma TurnGoesWell(o: Options, p: seq<byte>, cur: Cursor)
    requires cur.offset < |p| && ReadSection(o, p, cur).Next?
    ensures var (s, next) := (ReadSection(o, p, cur).span, ReadSection(o, p, cur).cur);
            && s.start == cur.offset && s.end == next.offset && (next.ok <==> cur.ok && WellRead(o, p, s))
            && (next.ok ==> next.offset <= |p|)
  {
    hide ReadU32, Order, ReadCustom;
  }

  /** A run succeeds exactly if it starts without an error, gets to the end of the data, and every
      section it went through is well read: no error is lost on the way, and none but those of
      custom sections is tolerated. */
  lemma {:induction false} SucceedsExactly(o: Options, p: seq<byte>, cur: Cursor)
    requires cur.offset <= |p|
    ensures var spans := ReadAll(o, p, cur).1;
            ReadAll(o, p, cur).0 <==>
              && cur.ok && Tiles(spans, cur.offset, |p|)
              && forall s | s in spans :: WellRead(o, p, s)
    decreases |p| - cur.offset
  {
    hide ReadSection, WellRead;
    if cur.offset < |p| {
      match ReadSection(o, p, cur)
      case Abort =>
      case Next(span, next) =>
        TurnGoesWell(o, p, cur);
        if next.ok { SucceedsExactly(o, p, next); } else if ReadAll(o, p, next).0 { GoesWell(o, p, next); }
        var spans := ReadAll(o, p, cur).1;
        assert spans == [span] + ReadAll(o, p, next).1 && spans[1..] == ReadAll(o, p, next).1;
        assert span in spans && forall s | s in spans :: s == span || s in spans[1..];
    }
  }

  /** Each kind of non-custom section occurs at most once. */
  lemma {:induction false} AtMostOnce(spans: seq<Span>, last: Option<nat>, i: nat, j: nat)
    requires InOrder(spans, last) && i < j < |spans|
    requires spans[i].code != CUSTOM_CODE && spans[j].code != CUSTOM_CODE
    ensures Order(spans[i].code) < Order(spans[j].code)
    decreases |spans|
  {
    if i == 0 {
      if spans[0].code != CUSTOM_CODE { AfterLast(spans[1..], Some(spans[0].code), j - 1); }
    } else {
      AtMostOnce(spans[1..], if spans[0].code == CUSTOM_CODE then last else Some(spans[0].code), i - 1, j - 1);
    }
  }

  lemma {:induction false} AfterLast(spans: seq<Span>, last: Option<nat>, j: nat)
    requires InOrder(spans, last) && last.Some? && j < |spans| && spans[j].code != CUSTOM_CODE
    ensures Order(last.value) < Order(spans[j].code)
    decreases |spans|
  {
    if j > 0 {
      AfterLast(spans[1..], if spans[0].code == CUSTOM_CODE then last else Some(spans[0].code), j - 1);
    }
  }

  /** The codes seen are those of the order, so the duplicate check adds nothing to it. */
  lemma SeenIsOrdered(o: Options, p: seq<byte>, cur: Cursor)
    requires cur.offset < |p|
    requires cur.last.None? ==> cur.seen == {}
    requires cur.last.Some? ==> forall c | c in cur.seen :: Order(c) <= Order(cur.last.value)
    ensures match ReadSection(o, p, cur)
            case Abort => true
            case Next(span, next) =>
              && (next.last.None? ==> next.seen == {})
              && (next.last.Some? ==> forall c | c in next.seen :: Order(c) <= Order(next.last.value))
    ensures ReadSection(o, p, cur.(seen := {})).Next? <==> ReadSection(o, p, cur).Next?
  {
    hide ReadU32;
  }

  // ----- the class -----

  class SectionReader {
    const options: Options
    const data: seq<byte>
    var offset: nat
    var readEnd: nat
    var lastKnownSection: Option<nat>
    var didReadNamesSection: bool

    constructor (options: Options, data: seq<byte>, offset: nat)
      ensures this.options == options && this.data == data && this.offset == offset
      ensures readEnd == |data| && lastKnownSection == None && !didReadNamesSection
    {
      this.options, this.data, this.offset := options, data, offset;
      readEnd, lastKnownSection, didReadNamesSection := |data|, None, false;
    }

    ghost function Here(seen: set<nat>, ok: bool): Cursor
      reads this
    {
      Cursor(offset, lastKnownSection, seen, didReadNamesSection, ok)
    }

    /** The cursor is saved before the generic callback reads to the end of the section, and
        put back after it. */
    method ReadCustomSection() returns (ok: bool)
      requires readEnd <= |data|
      modifies this`offset, this`didReadNamesSection
      ensures var r := ReadCustom(options, data, old(offset), readEnd);
              && ok == r.content.ok && (ok ==> offset == r.content.offset)
              && didReadNamesSection == (old(didReadNamesSection) || r.names)
    {
      match ReadU32(data[..readEnd], offset) {
        case None => return false;
        case Some(n) =>
          offset := n.next;
          if n.value < 0 || offset + n.value > readEnd { return false; }
          var name := data[offset..offset + n.value];
          offset := offset + n.value;
          if !options.validName(name) { return false; }
          var saved := offset;
          offset := readEnd;
          offset := saved;
          if options.readDebugNames && name == NAME_SECTION {
            var c := options.named(name, offset, readEnd);
            offset := c.offset;
            if !c.ok { return false; }
            didReadNamesSection := true;
          } else if options.handles(name) {
            var c := options.named(name, offset, readEnd);
            offset := c.offset;
            return c.ok;
          } else {
            offset := readEnd;
          }
          return true;
      }
    }

    method ReadSections() returns (ok: bool)
      requires readEnd == |data| && lastKnownSection == None && !didReadNamesSection
      modifies this
      ensures ok == ReadAll(options, data, old(Here({}, true))).0
      ensures ok && old(offset) <= |data| ==> offset == |data|
    {
      hide ReadSection;
      ok := true;
      var seen: set<nat> := {};
      while offset < |data|
        invariant readEnd == |data|
        invariant ReadAll(options, data, old(Here({}, true))).0 == ReadAll(options, data, Here(seen, ok)).0
        invariant ReadAll(options, data, Here(seen, ok)).0 && old(offset) <= |data| ==> offset <= |data|
        decreases |data| - offset
      {
        ghost var cur := Here(seen, ok);
        if ReadAll(options, data, cur).0 { StaysInside(options, data, cur); }
        var goOn;
        goOn, seen, ok := ReadOne(seen, ok);
        if !goOn { return false; }
      }
    }

    /** In a run that succeeds the cursor never leaves the data. */
    lemma StaysInside(o: Options, p: seq<byte>, cur: Cursor)
      requires cur.offset < |p| && ReadAll(o, p, cur).0
      ensures ReadSection(o, p, cur).Next? && ReadSection(o, p, cur).cur.offset <= |p|
    {
      hide ReadU32, Order;
      GoesWell(o, p, ReadSection(o, p, cur).cur);
    }

    /** One turn of the loop: the section's end bounds all reading in it, and the cursor leaves
        the section at that end. */
    method ReadOne(seen: set<nat>, okBefore: bool) returns (goOn: bool, seenNow: set<nat>, ok: bool)
      requires offset < |data| && readEnd == |data|
      modifies this
      ensures match ReadSection(options, data, old(Here(seen, okBefore)))
              case Abort => !goOn
              case Next(span, next) => goOn && Here(seenNow, ok) == next && readEnd == |data|
    {
      hide ReadU32, Order, ReadCustom;
      goOn, seenNow, ok := true, seen, okBefore;
      var code: nat := data[offset];
      offset := offset + 1;
      match ReadU32(data, offset) {
        case None => return false, seen, ok;
        case Some(size) =>
          ReadU32Forward(data, offset);
          offset := size.next;
          readEnd := offset + size.value;
          if code >= SECTION_COUNT {
            if options.stopOnFirstError { return false, seen, ok; }
            ok := false;
            offset, readEnd := readEnd, |data|;
            return;
          }
          if code != CUSTOM_CODE {
            if code in seen { return false, seen, ok; }
            seenNow := seen + {code};
          }
          if readEnd > |data| { return false, seen, ok; }
          if lastKnownSection != None && code != CUSTOM_CODE
              && Order(code) <= Order(lastKnownSection.value) { return false, seen, ok; }
          if didReadNamesSection && code != CUSTOM_CODE { return false, seen, ok; }
          if code == 13 && !options.exceptions { return false, seen, ok; }
          if code == 12 && !options.bulkMemory { return false, seen, ok; }
          var stop := options.stopOnFirstError;
          var sectionOk;
          if code == CUSTOM_CODE {
            sectionOk := ReadCustomSection();
            if options.failOnCustomSectionError { ok := ok && sectionOk; } else { stop := false; }
          } else {
            var c := options.known(code, offset, readEnd);
            offset, sectionOk := c.offset, c.ok;
            ok := ok && sectionOk;
          }
          if sectionOk && offset != readEnd {
            sectionOk := false;
            ok := false;
          }
          if !sectionOk {
            if stop { return false, seen, ok; }
            offset := readEnd;
          }
          if code != CUSTOM_CODE { lastKnownSection := Some(code); }
          readEnd := |data|;
      }
    }
  }
}

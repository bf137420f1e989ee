/** The binary writer's backpatching: section and body sizes, relocations recorded on the way,
    the DataCount section removed and code metadata inserted after the fact. */
module BinaryWriter {
  import opened Ir
  import opened Leb128
  import opened Streams

  type u32 = x: int | 0 <= x < TWO_TO_32

  datatype RelocType = FuncIndexLEB | GlobalIndexLEB | TypeIndexLEB | TableNumberLEB

  /** Where a relocation applies, within its section's payload, and the symbol it refers to. */
  datatype Reloc = Reloc(kind: RelocType, offset: nat, symbol: nat)

  datatype RelocSection = RelocSection(name: string, sectionIndex: nat, relocations: seq<Reloc>)

  /** `current` is the position of the reloc section last added to. */
  datatype Relocs = Relocs(sections: seq<RelocSection>, current: Option<nat>)

  /** Section contents: plain bytes, and indices that may need a relocation. */
  datatype Chunk = Raw(bytes: seq<byte>) | Indexed(kind: RelocType, index: u32)

  /** Write options and the symbol table; no symbol means the index is out of range. */
  datatype Options = Options(canonicalLebs: bool, relocatable: bool, referenceTypes: bool,
      symbols: (RelocType, u32) -> Option<nat>)

  // ----- the bytes and relocations of a piece of content -----

  predicate Relocates(o: Options, kind: RelocType) {
    o.relocatable && (kind == TableNumberLEB ==> o.referenceTypes)
  }

  predicate SignedKind(kind: RelocType) { kind == TypeIndexLEB || kind == TableNumberLEB }

  function IndexBytes(o: Options, kind: RelocType, index: u32): (b: seq<byte>)
    ensures Relocates(o, kind) ==> |b| == 5
  {
    if Relocates(o, kind) then (if SignedKind(kind) then FixedS32(index) else FixedU32(index))
    else if SignedKind(kind) then EncodeS(Twos(TWO_TO_31, index))
    else EncodeU(index)
  }

  function ChunkBytes(o: Options, c: Chunk): seq<byte> {
    match c
    case Raw(bytes) => bytes
    case Indexed(kind, index) => IndexBytes(o, kind, index)
  }

  function Bytes(o: Options, cs: seq<Chunk>): seq<byte> {
    if cs == [] then [] else ChunkBytes(o, cs[0]) + Bytes(o, cs[1..])
  }

  /** The relocations of content that starts at `base` in its section's payload. */
  function RelocsAt(o: Options, cs: seq<Chunk>, base: nat): seq<Reloc> {
    if cs == [] then []
    else RelocOf(o, cs[0], base) + RelocsAt(o, cs[1..], base + |ChunkBytes(o, cs[0])|)
  }

  function RelocOf(o: Options, c: Chunk, base: nat): seq<Reloc> {
    if c.Indexed? && Relocates(o, c.kind) && o.symbols(c.kind, c.index).Some?
    then [Reloc(c.kind, base, o.symbols(c.kind, c.index).value)] else []
  }

  /** Some index of the content goes through AddReloc. */
  predicate Recording(o: Options, cs: seq<Chunk>) {
    exists i :: 0 <= i < |cs| && cs[i].Indexed? && Relocates(o, cs[i].kind)
  }

  /** A length field; a 32-bit count. */
  function SizeLeb(o: Options, n: nat): (b: seq<byte>)
    ensures |b| >= Space(o)
  {
    if o.canonicalLebs then EncodeU(n % TWO_TO_32) else FixedU32(n % TWO_TO_32)
  }

  /** The bytes first left for a length field. */
  function Space(o: Options): nat { if o.canonicalLebs then 1 else 5 }

  /** What AddReloc does to the reloc sections: start one for this section if the current one
      is another section's. */
  function Opened(r: Relocs, name: string, count: nat): (r1: Relocs)
    ensures r1.current.Some?
    ensures r1.current.value < |r1.sections| ==> r1.sections[r1.current.value].sectionIndex == count
  {
    if r.current.Some? && (r.current.value < |r.sections| ==> r.sections[r.current.value].sectionIndex == count) then r
    else Relocs(r.sections + [RelocSection(name, count, [])], Some(|r.sections|))
  }

  function Added(r: Relocs, more: seq<Reloc>): Relocs {
    if r.current.Some? && r.current.value < |r.sections| then
      var s := r.sections[r.current.value];
      r.(sections := r.sections[r.current.value := s.(relocations := s.relocations + more)])
    else r
  }

  function Recorded(o: Options, r: Relocs, name: string, count: nat, cs: seq<Chunk>, base: nat): Relocs {
    if Recording(o, cs) then Added(Opened(r, name, count), RelocsAt(o, cs, base)) else r
  }

  /** Relocations within the range move by `delta`. */
  function Shifted(rs: seq<Reloc>, start: nat, end: nat, delta: nat): (r: seq<Reloc>)
    ensures |r| == |rs|
  {
    if rs == [] then []
    else
      [if start <= rs[0].offset <= end then rs[0].(offset := rs[0].offset + delta) else rs[0]]
          + Shifted(rs[1..], start, end, delta)
  }

  function ShiftedCurrent(r: Relocs, start: nat, end: nat, delta: nat): Relocs {
    if r.current.Some? && r.current.value < |r.sections| && delta != 0 then
      var s := r.sections[r.current.value];
      r.(sections := r.sections[r.current.value := s.(relocations := Shifted(s.relocations, start, end, delta))])
    else r
  }

  // ----- function bodies -----

  function BodyBytes(o: Options, b: seq<Chunk>): seq<byte> { SizeLeb(o, |Bytes(o, b)|) + Bytes(o, b) }

  function BodiesBytes(o: Options, bs: seq<seq<Chunk>>): seq<byte> {
    if bs == [] then [] else BodyBytes(o, bs[0]) + BodiesBytes(o, bs[1..])
  }

  /** The relocations of a run of bodies whose first size field is at `base`. */
  function BodiesRelocs(o: Options, bs: seq<seq<Chunk>>, base: nat): seq<Reloc> {
    if bs == [] then []
    else
      RelocsAt(o, bs[0], base + |SizeLeb(o, |Bytes(o, bs[0])|)|)
          + BodiesRelocs(o, bs[1..], base + |BodyBytes(o, bs[0])|)
  }

  /** One body as written: relocations recorded behind the guessed size field, then shifted. */
  function BodyStep(o: Options, r: Relocs, name: string, count: nat, b: seq<Chunk>, base: nat): Relocs {
    var delta := |SizeLeb(o, |Bytes(o, b)|)| - Space(o);
    var start := base + Space(o);
    ShiftedCurrent(Recorded(o, r, name, count, b, start), base, start + |Bytes(o, b)|, delta)
  }

  function BodySteps(o: Options, r: Relocs, name: string, count: nat, bs: seq<seq<Chunk>>, base: nat): Relocs
    decreases |bs|
  {
    if bs == [] then r
    else BodySteps(o, BodyStep(o, r, name, count, bs[0], base), name, count, bs[1..], base + |BodyBytes(o, bs[0])|)
  }

  // ----- the class -----

  class Writer {
    const options: Options
    var stream: Stream
    var relocSections: seq<RelocSection>
    var currentRelocSection: Option<nat>
    var sectionCount: nat
    var lastSectionName: string
    var lastSectionOffset: nat
    var lastSectionPayloadOffset: nat
    var codeStart: nat
    var dataCountStart: nat
    var dataCountEnd: nat

    constructor (options: Options)
      ensures this.options == options && Valid() && fresh(stream) && stream.data == []
      ensures State() == Relocs([], None) && sectionCount == 0
    {
      this.options := options;
      stream := new Stream();
      relocSections, currentRelocSection := [], None;
      sectionCount, lastSectionName := 0, "";
      lastSectionOffset, lastSectionPayloadOffset, codeStart, dataCountStart, dataCountEnd := 0, 0, 0, 0, 0;
    }

    ghost predicate Valid()
      reads this, stream
    {
      && stream.offset == |stream.data|
      && (currentRelocSection.Some? ==> currentRelocSection.value < |relocSections|)
    }

    ghost function State(): Relocs
      reads this
    {
      Relocs(relocSections, currentRelocSection)
    }

    // ----- length fields -----

    method WriteU32Leb128Space() returns (at: nat)
      requires Valid()
      modifies stream
      ensures Valid() && at == |old(stream.data)| && stream.data == old(stream.data) + Zeros(Space(options))
    {
      at := stream.offset;
      stream.WriteData(Zeros(if options.canonicalLebs then 1 else 5));
    }

    /** Fill in a length field, moving the payload up when the length does not fit. */
    method WriteFixupU32Leb128Size(offset: nat) returns (delta: nat)
      requires Valid() && offset + Space(options) <= |stream.data|
      modifies stream
      ensures Valid()
      ensures var size := |old(stream.data)| - offset - Space(options);
              && stream.data == old(stream.data)[..offset] + SizeLeb(options, size)
                  + old(stream.data)[offset + Space(options)..]
              && delta == |SizeLeb(options, size)| - Space(options)
    {
      hide Overwritten, Moved, EncodeU, FixedU32;
      ghost var d := stream.data;
      FixupEdit(d, offset, Space(options), SizeLeb(options, |d| - offset - Space(options)));
      if options.canonicalLebs {
        var size := stream.offset - offset - 1;
        var lebSize := U32Leb128Length(size % TWO_TO_32);
        delta := lebSize - 1;
        if delta != 0 { stream.MoveData(offset + lebSize, offset + 1, size); }
        stream.WriteDataAt(offset, EncodeU(size % TWO_TO_32));
        stream.AddOffset(delta);
      } else {
        var size := stream.offset - offset - 5;
        stream.WriteDataAt(offset, FixedU32(size % TWO_TO_32));
        delta := 0;
      }
    }

    // ----- content -----

    method AddReloc(kind: RelocType, index: u32)
      requires Valid() && lastSectionPayloadOffset <= stream.offset
      modifies this`relocSections, this`currentRelocSection
      ensures Valid()
      ensures var s := options.symbols(kind, index);
              State() == Added(Opened(old(State()), lastSectionName, sectionCount),
                               if s.Some? then [Reloc(kind, stream.offset - lastSectionPayloadOffset, s.value)] else [])
    {
      if currentRelocSection == None || relocSections[currentRelocSection.value].sectionIndex != sectionCount {
        currentRelocSection := Some(|relocSections|);
        relocSections := relocSections + [RelocSection(lastSectionName, sectionCount, [])];
      }
      var cur := currentRelocSection.value;
      var s := relocSections[cur];
      assert s.relocations + [] == s.relocations;
      assert relocSections[cur := s] == relocSections;
      match options.symbols(kind, index) {
        case None =>
        case Some(symbol) =>
          relocSections := relocSections[cur := s.(relocations := s.relocations
              + [Reloc(kind, stream.offset - lastSectionPayloadOffset, symbol)])];
      }
    }

    method WriteChunk(c: Chunk)
      requires Valid() && lastSectionPayloadOffset <= stream.offset
      modifies this`relocSections, this`currentRelocSection, stream
      ensures Valid() && stream.data == old(stream.data) + ChunkBytes(options, c)
      ensures State() == Recorded(options, old(State()), lastSectionName, sectionCount, [c],
          |old(stream.data)| - lastSectionPayloadOffset)
    {
      hide RelocsAt, Recording, Bytes, Added, Opened, FixedS32, FixedU32, EncodeS, EncodeU, Twos, Overwritten;
      OneChunk(options, c, |stream.data| - lastSectionPayloadOffset);
      match c {
        case Raw(bytes) => stream.WriteData(bytes);
        case Indexed(kind, index) =>
          if options.relocatable && (kind == TableNumberLEB ==> options.referenceTypes) {
            AddReloc(kind, index);
            stream.WriteData(if SignedKind(kind) then FixedS32(index) else FixedU32(index));
          } else {
            stream.WriteData(if SignedKind(kind) then EncodeS(Twos(TWO_TO_31, index)) else EncodeU(index));
          }
      }
    }

    method WriteChunks(cs: seq<Chunk>)
      requires Valid() && lastSectionPayloadOffset <= stream.offset
      modifies this`relocSections, this`currentRelocSection, stream
      ensures Valid() && stream.data == old(stream.data) + Bytes(options, cs)
      ensures State() == Recorded(options, old(State()), lastSectionName, sectionCount, cs,
          |old(stream.data)| - lastSectionPayloadOffset)
    {
      hide Recorded, ChunkBytes;
      ghost var d, r, base := stream.data, State(), |stream.data| - lastSectionPayloadOffset;
      NothingRecorded(options, r, lastSectionName, sectionCount, base);
      assert cs[..0] == [] && Bytes(options, []) == [];
      var i := 0;
      while i < |cs|
        invariant 0 <= i <= |cs| && Valid()
        invariant stream.data == d + Bytes(options, cs[..i])
        invariant State() == Recorded(options, r, lastSectionName, sectionCount, cs[..i], base)
      {
        hide Bytes;
        OneChunk(options, cs[i], 0);
        BytesJoined(d, Bytes(options, cs[..i]), ChunkBytes(options, cs[i]));
        WriteChunk(cs[i]);
        assert cs[..i + 1] == cs[..i] + [cs[i]];
        BytesJoin(options, cs[..i], [cs[i]]);
        RecordedJoin(options, r, lastSectionName, sectionCount, cs[..i], [cs[i]], base);
        i := i + 1;
      }
      assert cs[..|cs|] == cs;
    }

    // ----- sections -----

    method BeginSection(code: byte, name: string)
      requires Valid()
      modifies this`lastSectionName, this`lastSectionOffset, this`lastSectionPayloadOffset, stream
      ensures Valid() && stream.data == old(stream.data) + [code] + Zeros(Space(options))
      ensures lastSectionName == name && lastSectionOffset == |old(stream.data)| + 1
          && lastSectionPayloadOffset == |stream.data|
    {
      stream.WriteData([code]);
      lastSectionName := name;
      lastSectionOffset := WriteU32Leb128Space();
      lastSectionPayloadOffset := stream.offset;
    }

    method EndSection()
      requires Valid() && lastSectionOffset + Space(options) <= |stream.data|
      modifies this`sectionCount, stream
      ensures Valid() && sectionCount == old(sectionCount) + 1
      ensures var size := |old(stream.data)| - lastSectionOffset - Space(options);
              stream.data == old(stream.data)[..lastSectionOffset] + SizeLeb(options, size)
                  + old(stream.data)[lastSectionOffset + Space(options)..]
    {
      var delta := WriteFixupU32Leb128Size(lastSectionOffset);
      sectionCount := sectionCount + 1;
    }

    /** A section whose content is known: its bytes, and its relocations under its own index. */
    method WriteSection(s: Section)
      requires Valid()
      modifies this`relocSections, this`currentRelocSection, this`sectionCount, this`lastSectionName,
          this`lastSectionOffset, this`lastSectionPayloadOffset, stream
      ensures Valid() && sectionCount == old(sectionCount) + 1
      ensures stream.data == old(stream.data) + SectionBytes(options, s.code, Bytes(options, s.content))
      ensures State() == Recorded(options, old(State()), s.name, old(sectionCount), s.content, 0)
    {
      ghost var d := stream.data;
      BeginSection(s.code, s.name);
      WriteChunks(s.content);
      SectionDone(options, d, s.code, Bytes(options, s.content), stream.data, lastSectionOffset);
      EndSection();
    }

    /** The code section, body by body. */
    method WriteCodeSection(bodies: seq<seq<Chunk>>)
      requires Valid()
      modifies this`relocSections, this`currentRelocSection, this`sectionCount, this`lastSectionName,
          this`lastSectionOffset, this`lastSectionPayloadOffset, this`codeStart, stream
      ensures Valid() && sectionCount == old(sectionCount) + 1 && codeStart == |old(stream.data)|
      ensures stream.data == old(stream.data) + SectionBytes(options, 10, CodePayload(options, bodies))
      ensures State() == BodySteps(options, old(State()), "Code", old(sectionCount), bodies,
          |EncodeU(|bodies| % TWO_TO_32)|)
    {
      hide BodySteps, BodiesBytes, EncodeU, SizeLeb, SectionBytes;
      ghost var d := stream.data;
      codeStart := stream.offset;
      BeginSection(10, "Code");
      stream.WriteData(EncodeU(|bodies| % TWO_TO_32));
      WriteBodies(bodies);
      BytesJoined(d + [10] + Zeros(Space(options)), EncodeU(|bodies| % TWO_TO_32), BodiesBytes(options, bodies));
      SectionDone(options, d, 10, CodePayload(options, bodies), stream.data, lastSectionOffset);
      EndSection();
    }

    method WriteBodies(bodies: seq<seq<Chunk>>)
      requires Valid() && lastSectionPayloadOffset <= stream.offset
      modifies this`relocSections, this`currentRelocSection, stream
      ensures Valid() && stream.data == old(stream.data) + BodiesBytes(options, bodies)
      ensures State() == BodySteps(options, old(State()), lastSectionName, sectionCount, bodies,
          |old(stream.data)| - lastSectionPayloadOffset)
    {
      hide BodyStep, BodyBytes, EncodeU, SizeLeb;
      ghost var d, r, base := stream.data, State(), |stream.data| - lastSectionPayloadOffset;
      var i := 0;
      while i < |bodies|
        invariant 0 <= i <= |bodies| && Valid()
        invariant stream.data == d + BodiesBytes(options, bodies[..i])
        invariant BodySteps(options, r, lastSectionName, sectionCount, bodies, base)
                  == BodySteps(options, State(), lastSectionName, sectionCount, bodies[i..],
                      |stream.data| - lastSectionPayloadOffset)
      {
        WriteBody(bodies[i]);
        assert bodies[i..][1..] == bodies[i + 1..];
        assert bodies[..i + 1] == bodies[..i] + [bodies[i]];
        BodiesJoin(options, bodies[..i], bodies[i]);
        i := i + 1;
      }
      assert bodies[..|bodies|] == bodies;
    }

    /** One body: guess its size, write it, fix the size up, shift the relocations. */
    method WriteBody(b: seq<Chunk>)
      requires Valid() && lastSectionPayloadOffset <= stream.offset
      modifies this`relocSections, this`currentRelocSection, stream
      ensures Valid() && stream.data == old(stream.data) + BodyBytes(options, b)
      ensures State() == BodyStep(options, old(State()), lastSectionName, sectionCount, b,
          |old(stream.data)| - lastSectionPayloadOffset)
    {
      hide Recorded, SizeLeb, Bytes, Shifted;
      ghost var d := stream.data;
      var at := WriteU32Leb128Space();
      WriteChunks(b);
      var start := at - lastSectionPayloadOffset;
      var end := stream.offset - lastSectionPayloadOffset;
      ghost var full := stream.data;
      var delta := WriteFixupU32Leb128Size(at);
      assert full == d + Zeros(Space(options)) + Bytes(options, b);
      assert full[..at] == d && full[at + Space(options)..] == Bytes(options, b);
      if currentRelocSection.Some? && delta != 0 {
        var cur := currentRelocSection.value;
        var s := relocSections[cur];
        var rs := ShiftAll(s.relocations, start, end, delta);
        relocSections := relocSections[cur := s.(relocations := rs)];
      }
    }

    method WriteSections(ss: seq<Section>)
      requires Valid()
      modifies this`relocSections, this`currentRelocSection, this`sectionCount, this`lastSectionName,
          this`lastSectionOffset, this`lastSectionPayloadOffset, stream
      ensures Valid() && sectionCount == old(sectionCount) + |ss|
      ensures stream.data == old(stream.data) + SectionsBytes(options, ss)
      ensures State() == RecordedAll(options, old(State()), ss, old(sectionCount))
    {
      hide Recorded, SectionBytes;
      ghost var d, r, first := stream.data, State(), sectionCount;
      var i := 0;
      while i < |ss|
        invariant 0 <= i <= |ss| && Valid() && sectionCount == first + i
        invariant stream.data + SectionsBytes(options, ss[i..]) == d + SectionsBytes(options, ss)
        invariant RecordedAll(options, r, ss, first) == RecordedAll(options, State(), ss[i..], sectionCount)
      {
        assert ss[i..][1..] == ss[i + 1..];
        WriteSection(ss[i]);
        i := i + 1;
      }
      assert stream.data + [] == stream.data;
    }

    /** Take the DataCount section out again; the code section behind it moves up by one. */
    method RemoveDataCount()
      requires Valid() && dataCountStart <= dataCountEnd <= |stream.data| && sectionCount >= 1
      requires forall i | 0 <= i < |relocSections| :: relocSections[i].sectionIndex == sectionCount - 1 ==>
          sectionCount >= 2
      modifies this`relocSections, this`sectionCount, this`codeStart, stream
      ensures Valid() && sectionCount == old(sectionCount) - 1
      ensures stream.data == old(stream.data)[..dataCountStart] + old(stream.data)[dataCountEnd..]
      ensures codeStart == if dataCountEnd < |old(stream.data)| then dataCountStart else old(codeStart)
      ensures State() == old(State()).(sections := Renumbered(old(relocSections), sectionCount, sectionCount - 1))
    {
      hide Moved;
      var size := stream.offset - dataCountEnd;
      ghost var d := stream.data;
      RemoveEdit(d, dataCountStart, dataCountEnd);
      if size != 0 {
        stream.MoveData(dataCountStart, dataCountEnd, size);
        codeStart := dataCountStart;
      } else {
        NothingMoved(d, dataCountStart, dataCountEnd);
      }
      stream.Truncate(dataCountStart + size);
      sectionCount := sectionCount - 1;
      relocSections := Renumber(relocSections, sectionCount, sectionCount - 1);
    }

    /** Code metadata goes in front of the code section, which moves back. */
    method WriteCodeMetadataSections(metas: seq<Section>)
      requires Valid() && (metas != [] ==> sectionCount >= 1 && codeStart <= |stream.data|)
      modifies this, stream
      ensures Valid() && stream == old(stream) && sectionCount == old(sectionCount) + |metas|
      ensures stream.data == if metas == [] then old(stream.data)
          else old(stream.data)[..old(codeStart)] + SectionsBytes(options, metas) + old(stream.data)[old(codeStart)..]
      ensures codeStart == old(codeStart) + |SectionsBytes(options, metas)|
      ensures State() == if metas == [] then old(State()) else
                RecordedAll(options, old(State()).(sections :=
                    Renumbered(old(relocSections), old(sectionCount) - 1, old(sectionCount) - 1 + |metas|)), metas,
                    old(sectionCount) - 1)
    {
      hide Moved, Overwritten, RecordedAll, SectionsBytes, Renumbered;
      ghost var d, at := stream.data, codeStart;
      NoSections(options);
      if metas == [] { return; }
      sectionCount := sectionCount - 1;
      relocSections := Renumber(relocSections, sectionCount, sectionCount + |metas|);
      var main := stream;
      stream := new Stream();
      WriteSections(metas);
      var buf := stream.data;
      assert buf == SectionsBytes(options, metas);
      stream := main;
      InsertEdit(d, at, buf);
      stream.MoveData(codeStart + |buf|, codeStart, stream.offset - codeStart);
      stream.WriteDataAt(codeStart, buf);
      stream.AddOffset(|buf|);
      codeStart := codeStart + |buf|;
      sectionCount := sectionCount + 1;
      lastSectionName := "Code";
    }

    /** Everything before the code section; where DataCount stands is remembered. */
    method WriteUpToCode(m: Parts)
      requires Valid() && stream.data == [] && State() == Relocs([], None) && sectionCount == 0
      modifies this, stream
      ensures Valid() && stream == old(stream) && (State(), sectionCount) == BeforeCode(options, m)
          && Bounded(State(), |m.before|)
      ensures stream.data == BeforeBytes(options, m) + DataCountBytes(options, m)
      ensures m.dataCount.Some? ==> dataCountStart == |BeforeBytes(options, m)| && dataCountEnd == |stream.data|
    {
      hide SectionBytes, SectionsBytes, RecordedAll, Recorded, Bounded, Header, EncodeU, Overwritten;
      stream.WriteData(Header());
      WriteSections(m.before);
      AllBounded(options, Relocs([], None), m.before, 0);
      assert Bounded(Relocs([], None), 0) by { BoundedEmpty(); }
      match m.dataCount {
        case None =>
          assert stream.data + [] == stream.data;
        case Some(n) =>
          dataCountStart := stream.offset;
          NoIndices(options, State(), n, sectionCount);
          WriteSection(DataCountSection(n));
          OneSection(options, DataCountSection(n));
          dataCountEnd := stream.offset;
      }
    }

    /** The code section; then DataCount goes when nothing needs it. */
    method WriteCode(m: Parts)
      requires Valid() && (State(), sectionCount) == BeforeCode(options, m) && Bounded(State(), |m.before|)
      requires stream.data == BeforeBytes(options, m) + DataCountBytes(options, m)
      requires m.dataCount.Some? ==> dataCountStart == |BeforeBytes(options, m)| && dataCountEnd == |stream.data|
      modifies this, stream
      ensures Valid() && stream == old(stream) && (State(), sectionCount) == AfterRemoval(options, m)
      ensures stream.data == KeptBytes(options, m) + CodeBytes(options, m)
      ensures m.bodies != [] ==> codeStart == |KeptBytes(options, m)| && sectionCount >= 1
    {
      hide SectionBytes, RecordedAll, Recorded, BodySteps, Bounded, CodePayload, Renumbered;
      ghost var d1 := stream.data;
      if m.bodies == [] { CodeBounded(options, State(), m); }
      if m.bodies != [] { WriteCodeSection(m.bodies); }
      ghost var d2, code := stream.data, CodeBytes(options, m);
      assert d2 == d1 + code;
      if m.dataCount.Some? && !m.usesData {
        assert d2[..|BeforeBytes(options, m)|] == BeforeBytes(options, m) && d2[|d1|..] == code;
        CodeNotEmpty(options, m);
        RemoveDataCount();
      }
    }

    /** The order of WriteModule, for a module with the given contents. */
    method WriteModule(m: Parts)
      requires Valid() && stream.data == [] && State() == Relocs([], None) && sectionCount == 0
      requires m.metas != [] ==> m.bodies != []
      modifies this, stream
      ensures Valid() && stream.data == FileBytes(options, m) && State() == ModuleRelocs(options, m)
    {
      hide SectionsBytes, BeforeCode, AfterRemoval, BeforeBytes, DataCountBytes, CodeBytes, KeptBytes, RecordedAll,
          Renumbered, Bounded;
      WriteUpToCode(m);
      WriteCode(m);
      ghost var kept, code := KeptBytes(options, m), CodeBytes(options, m);
      WriteCodeMetadataSections(m.metas);
      if m.metas == [] {
        NoSections(options);
        assert kept + [] + code == kept + code;
      } else {
        assert (kept + code)[..|kept|] == kept && (kept + code)[|kept|..] == code;
      }
      WriteSections(m.after);
    }

    method Renumber(rs: seq<RelocSection>, from: nat, to: int) returns (r: seq<RelocSection>)
      requires forall i | 0 <= i < |rs| :: rs[i].sectionIndex == from ==> to >= 0
      ensures r == Renumbered(rs, from, to)
    {
      r := rs;
      var i := 0;
      while i < |rs|
        invariant 0 <= i <= |rs| && |r| == |rs|
        invariant r[i..] == rs[i..]
        invariant forall j | 0 <= j < i :: r[j] == if rs[j].sectionIndex == from
            && to >= 0 then rs[j].(sectionIndex := to) else rs[j]
      {
        assert r[i] == r[i..][0] == rs[i];
        if r[i].sectionIndex == from { r := r[i := r[i].(sectionIndex := to)]; }
        assert r[i + 1..] == rs[i + 1..];
        i := i + 1;
      }
    }

    method ShiftAll(rs: seq<Reloc>, start: nat, end: nat, delta: nat) returns (r: seq<Reloc>)
      ensures r == Shifted(rs, start, end, delta)
    {
      r := rs;
      var i := 0;
      while i < |rs|
        invariant 0 <= i <= |rs| && |r| == |rs|
        invariant r[i..] == rs[i..]
        invariant Shifted(rs, start, end, delta) == r[..i] + Shifted(rs[i..], start, end, delta)
      {
        assert rs[i..][1..] == rs[i + 1..] && rs[i..][0] == rs[i] == r[i];
        if start <= r[i].offset <= end { r := r[i := r[i].(offset := r[i].offset + delta)]; }
        i := i + 1;
      }
    }
  }

  // ----- sections -----

  datatype Section = Section(code: byte, name: string, content: seq<Chunk>)

  function SectionBytes(o: Options, code: byte, payload: seq<byte>): seq<byte> {
    [code] + SizeLeb(o, |payload|) + payload
  }

  function CodePayload(o: Options, bodies: seq<seq<Chunk>>): seq<byte> {
    EncodeU(|bodies| % TWO_TO_32) + BodiesBytes(o, bodies)
  }

  function SectionsBytes(o: Options, ss: seq<Section>): seq<byte> {
    if ss == [] then [] else SectionBytes(o, ss[0].code, Bytes(o, ss[0].content)) + SectionsBytes(o, ss[1..])
  }

  /** The relocations of sections written one after the other from index `first`. */
  function RecordedAll(o: Options, r: Relocs, ss: seq<Section>, first: nat): Relocs
    decreases |ss|
  {
    if ss == [] then r else RecordedAll(o, Recorded(o, r, ss[0].name, first, ss[0].content, 0), ss[1..], first + 1)
  }

  function Renumbered(rs: seq<RelocSection>, from: nat, to: int): (r: seq<RelocSection>)
    ensures |r| == |rs|
  {
    seq(|rs|, i requires 0 <= i < |rs| => if rs[i].sectionIndex == from
        && to >= 0 then rs[i].(sectionIndex := to) else rs[i])
  }

  /** What a module consists of: the sections before DataCount, the DataCount section with
      whether an instruction needs it, the function bodies, the code metadata sections, and
      the sections after the code. */
  datatype Parts = Parts(before: seq<Section>, dataCount: Option<u32>, usesData: bool, bodies: seq<seq<Chunk>>,
      metas: seq<Section>, after: seq<Section>)

  function Header(): seq<byte> { [0, 97, 115, 109, 1, 0, 0, 0] }

  function CodeBytes(o: Options, m: Parts): seq<byte> {
    if m.bodies == [] then [] else SectionBytes(o, 10, CodePayload(o, m.bodies))
  }

  function DataCountSection(n: u32): Section { Section(12, "DataCount", [Raw(EncodeU(n))]) }

  lemma OneSection(o: Options, s: Section)
    ensures SectionsBytes(o, [s]) == SectionBytes(o, s.code, Bytes(o, s.content))
  {
    assert [s][1..] == [];
    assert SectionsBytes(o, []) == [];
    assert SectionBytes(o, s.code, Bytes(o, s.content)) + [] == SectionBytes(o, s.code, Bytes(o, s.content));
  }

  predicate KeepsDataCount(m: Parts) { m.dataCount.Some? && m.usesData }

  function BeforeBytes(o: Options, m: Parts): seq<byte> { Header() + SectionsBytes(o, m.before) }

  function DataCountBytes(o: Options, m: Parts): seq<byte> {
    match m.dataCount
    case None => []
    case Some(n) => SectionsBytes(o, [DataCountSection(n)])
  }

  /** What stands before the code section and its metadata in the finished file. */
  function KeptBytes(o: Options, m: Parts): seq<byte> {
    BeforeBytes(o, m) + if KeepsDataCount(m) then DataCountBytes(o, m) else []
  }

  /** The finished file. */
  function FileBytes(o: Options, m: Parts): seq<byte> {
    KeptBytes(o, m) + SectionsBytes(o, m.metas) + CodeBytes(o, m) + SectionsBytes(o, m.after)
  }

  /** The reloc sections as WriteModule builds them, step by step. */
  function BeforeCode(o: Options, m: Parts): (Relocs, nat) {
    var r := RecordedAll(o, Relocs([], None), m.before, 0);
    var n := |m.before|;
    match m.dataCount
    case None => (r, n)
    case Some(k) => (Recorded(o, r, "DataCount", n, [Raw(EncodeU(k))], 0), n + 1)
  }

  function AfterCode(o: Options, m: Parts): (Relocs, nat) {
    var (r, n) := BeforeCode(o, m);
    if m.bodies == [] then (r, n)
    else (BodySteps(o, r, "Code", n, m.bodies, |EncodeU(|m.bodies| % TWO_TO_32)|), n + 1)
  }

  function AfterRemoval(o: Options, m: Parts): (Relocs, int) {
    var (r, n) := AfterCode(o, m);
    if m.dataCount.Some? && !m.usesData then (r.(sections := Renumbered(r.sections, n - 1, n - 2)), n - 1) else (r, n)
  }

  function AfterMetas(o: Options, m: Parts): (Relocs, int) {
    var (r, n) := AfterRemoval(o, m);
    if m.metas == [] || n < 1 then (r, n)
    else (RecordedAll(o, r.(sections := Renumbered(r.sections, n - 1, n - 1 + |m.metas|)), m.metas, n - 1),
        n + |m.metas|)
  }

  function ModuleRelocs(o: Options, m: Parts): Relocs {
    var (r, n) := AfterMetas(o, m);
    if n < 0 then r else RecordedAll(o, r, m.after, n)
  }

  /** Every reloc section is for one of the first `n` sections. */
  ghost predicate Bounded(r: Relocs, n: nat) {
    && (forall i {:trigger r.sections[i]} | 0 <= i < |r.sections| :: r.sections[i].sectionIndex < n)
    && (r.current.Some? ==> r.current.value < |r.sections|)
  }

  lemma RecordedBounded(o: Options, r: Relocs, name: string, n: nat, cs: seq<Chunk>, base: nat)
    requires Bounded(r, n) || Bounded(r, n + 1)
    ensures Bounded(Recorded(o, r, name, n, cs, base), n + 1)
  {}

  lemma {:induction false} AllBounded(o: Options, r: Relocs, ss: seq<Section>, first: nat)
    requires Bounded(r, first)
    ensures Bounded(RecordedAll(o, r, ss, first), first + |ss|)
    decreases |ss|
  {
    if ss != [] {
      RecordedBounded(o, r, ss[0].name, first, ss[0].content, 0);
      AllBounded(o, Recorded(o, r, ss[0].name, first, ss[0].content, 0), ss[1..], first + 1);
    }
  }

  lemma BytesJoined(a: seq<byte>, b: seq<byte>, c: seq<byte>)
    ensures a + b + c == a + (b + c)
  {}

  lemma SectionDone(o: Options, d: seq<byte>, code: byte, payload: seq<byte>, full: seq<byte>, at: nat)
    requires full == d + [code] + Zeros(Space(o)) + payload && at == |d| + 1
    ensures full[..at] + SizeLeb(o, |full| - at - Space(o)) + full[at + Space(o)..] == d
        + SectionBytes(o, code, payload)
  {
    assert full[..at] == d + [code];
    assert full[at + Space(o)..] == payload;
  }

  // ----- content is written piece by piece -----

  lemma OneChunk(o: Options, c: Chunk, base: nat)
    ensures Bytes(o, [c]) == ChunkBytes(o, c) && RelocsAt(o, [c], base) == RelocOf(o, c, base)
    ensures Recording(o, [c]) <==> c.Indexed? && Relocates(o, c.kind)
  {
    assert [c][1..] == [];
    assert [c][0] == c;
  }

  lemma {:induction false} BytesJoin(o: Options, a: seq<Chunk>, b: seq<Chunk>)
    ensures Bytes(o, a + b) == Bytes(o, a) + Bytes(o, b)
  {
    if a == [] { assert a + b == b; } else {
      assert (a + b)[1..] == a[1..] + b;
      BytesJoin(o, a[1..], b);
    }
  }

  lemma {:induction false} RelocsJoin(o: Options, a: seq<Chunk>, b: seq<Chunk>, base: nat)
    ensures RelocsAt(o, a + b, base) == RelocsAt(o, a, base) + RelocsAt(o, b, base + |Bytes(o, a)|)
    decreases |a|
  {
    hide ChunkBytes, RelocOf;
    if a == [] { assert a + b == b; } else {
      assert (a + b)[1..] == a[1..] + b;
      RelocsJoin(o, a[1..], b, base + |ChunkBytes(o, a[0])|);
    }
  }

  /** Recording two pieces one after the other is recording their concatenation. */
  lemma RecordedJoin(o: Options, r: Relocs, name: string, count: nat, a: seq<Chunk>, b: seq<Chunk>, base: nat)
    requires r.current.Some? ==> r.current.value < |r.sections|
    ensures Recorded(o, Recorded(o, r, name, count, a, base), name, count, b, base + |Bytes(o, a)|)
        == Recorded(o, r, name, count, a + b, base)
  {
    RelocsJoin(o, a, b, base);
    RecordingJoin(o, a, b);
    if Recording(o, a) {
      var p := Opened(r, name, count);
      var q := Added(p, RelocsAt(o, a, base));
      assert Opened(q, name, count) == q;
      AddedTwice(p, RelocsAt(o, a, base), RelocsAt(o, b, base + |Bytes(o, a)|));
      if !Recording(o, b) {
        NoRelocs(o, b, base + |Bytes(o, a)|);
        assert RelocsAt(o, a, base) + [] == RelocsAt(o, a, base);
      }
    } else {
      NoRelocs(o, a, base);
      assert [] + RelocsAt(o, b, base + |Bytes(o, a)|) == RelocsAt(o, b, base + |Bytes(o, a)|);
    }
  }

  lemma NothingRecorded(o: Options, r: Relocs, name: string, count: nat, base: nat)
    ensures Recorded(o, r, name, count, [], base) == r
  {}

  lemma NoIndices(o: Options, r: Relocs, k: u32, n: nat)
    ensures Recorded(o, r, "DataCount", n, [Raw(EncodeU(k))], 0) == r
  {
    assert !Recording(o, [Raw(EncodeU(k))]);
  }

  lemma NoSections(o: Options)
    ensures SectionsBytes(o, []) == []
  {}

  lemma BoundedEmpty()
    ensures Bounded(Relocs([], None), 0)
  {}

  lemma CodeNotEmpty(o: Options, m: Parts)
    ensures CodeBytes(o, m) == [] <==> m.bodies == []
  {}

  /** Only the code section's own relocations can bear the last index. */
  lemma CodeBounded(o: Options, r: Relocs, m: Parts)
    requires Bounded(r, |m.before|) && m.bodies == []
    ensures forall i | 0 <= i < |r.sections| :: r.sections[i].sectionIndex != |m.before|
  {}

  lemma NothingMoved(d: seq<byte>, dst: nat, src: nat)
    ensures Moved(d, dst, src, 0) == d
  {}

  lemma AddedTwice(r: Relocs, x: seq<Reloc>, y: seq<Reloc>)
    ensures Added(Added(r, x), y) == Added(r, x + y)
  {
    if r.current.Some? && r.current.value < |r.sections| {
      var s := r.sections[r.current.value];
      assert s.relocations + x + y == s.relocations + (x + y);
    }
  }

  lemma RecordingJoin(o: Options, a: seq<Chunk>, b: seq<Chunk>)
    ensures Recording(o, a + b) <==> Recording(o, a) || Recording(o, b)
  {
    if Recording(o, b) {
      var i :| 0 <= i < |b| && b[i].Indexed? && Relocates(o, b[i].kind);
      assert (a + b)[|a| + i] == b[i];
    }
    if Recording(o, a) {
      var i :| 0 <= i < |a| && a[i].Indexed? && Relocates(o, a[i].kind);
      assert (a + b)[i] == a[i];
    }
  }

  lemma {:induction false} NoRelocs(o: Options, cs: seq<Chunk>, base: nat)
    requires !Recording(o, cs)
    ensures RelocsAt(o, cs, base) == []
    decreases |cs|
  {
    if cs != [] {
      assert !(cs[0].Indexed? && Relocates(o, cs[0].kind));
      assert forall i | 0 <= i < |cs[1..]| :: cs[1..][i] == cs[i + 1];
      NoRelocs(o, cs[1..], base + |ChunkBytes(o, cs[0])|);
    }
  }

  lemma {:induction false} BodiesJoin(o: Options, bs: seq<seq<Chunk>>, b: seq<Chunk>)
    ensures BodiesBytes(o, bs + [b]) == BodiesBytes(o, bs) + BodyBytes(o, b)
  {
    if bs == [] {
      assert (bs + [b])[1..] == [];
    } else {
      assert (bs + [b])[1..] == bs[1..] + [b];
      BodiesJoin(o, bs[1..], b);
    }
  }
}

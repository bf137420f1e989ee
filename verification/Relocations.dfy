/** What the finished file's relocations say: every index that was recorded has exactly its
    relocation, in the one reloc section that names the final position of its section. */
module Relocations {
  import opened Ir
  import opened Leb128
  import opened BinaryWriter
  import opened Backpatching

  // ----- the relocations of content -----

  lemma StandsParts(p: seq<byte>, i: nat, a: seq<byte>, b: seq<byte>)
    requires Stands(p, i, a + b)
    ensures Stands(p, i, a) && Stands(p, i + |a|, b)
  {
    assert p[i..i + |a|] == (a + b)[..|a|];
    assert p[i + |a|..i + |a| + |b|] == (a + b)[|a|..];
  }

  /** `r` is the relocation of piece `i`, an index with a symbol. */
  predicate RelocatesPiece(o: Options, cs: seq<Chunk>, i: nat, r: Reloc) {
    && i < |cs| && cs[i].Indexed? && o.relocatable && (cs[i].kind == TableNumberLEB ==> o.referenceTypes)
    && o.symbols(cs[i].kind, cs[i].index) == Some(r.symbol) && r.kind == cs[i].kind && r.offset == |Bytes(o, cs[..i])|
  }

  /** Content has a relocation for each of its indices with a symbol, and no other. */
  lemma RelocsExactly(o: Options, cs: seq<Chunk>, r: Reloc)
    ensures r in RelocsAt(o, cs, 0) <==> exists i: nat :: RelocatesPiece(o, cs, i, r)
  {
    hide RelocatesPiece;
    RelocsFrom(o, [], cs, r);
    assert [] + cs == cs;
    forall i: nat ensures RelocatesPiece(o, cs, i, r) ==> i < |cs| { PieceInside(o, cs, i, r); }
    hide RelocsAt;
  }

  lemma PieceInside(o: Options, cs: seq<Chunk>, i: nat, r: Reloc)
    ensures RelocatesPiece(o, cs, i, r) ==> i < |cs|
  {}

  lemma {:induction false} RelocsFrom(o: Options, done: seq<Chunk>, cs: seq<Chunk>, r: Reloc)
    ensures r in RelocsAt(o, cs, |Bytes(o, done)|) <==>
        exists i :: |done| <= i < |done| + |cs| && RelocatesPiece(o, done + cs, i, r)
    decreases |cs|
  {
    hide Bytes, ChunkBytes;
    if cs != [] {
      var more := done + [cs[0]];
      assert more + cs[1..] == done + cs;
      RelocsFrom(o, more, cs[1..], r);
      BytesJoin(o, done, [cs[0]]);
      OneChunk(o, cs[0], 0);
      PieceHere(o, done, cs, r);
      assert r in RelocsAt(o, cs, |Bytes(o, done)|) <==>
          r in RelocOf(o, cs[0], |Bytes(o, done)|) || r in RelocsAt(o, cs[1..], |Bytes(o, more)|);
      hide RelocatesPiece, RelocsAt;
      if exists i :: |done| <= i < |done| + |cs| && RelocatesPiece(o, done + cs, i, r) {
        var i :| |done| <= i < |done| + |cs| && RelocatesPiece(o, done + cs, i, r);
        if i > |done| { assert |more| <= i < |more| + |cs[1..]| && RelocatesPiece(o, more + cs[1..], i, r); }
      }
      if exists i :: |more| <= i < |more| + |cs[1..]| && RelocatesPiece(o, more + cs[1..], i, r) {
        var i :| |more| <= i < |more| + |cs[1..]| && RelocatesPiece(o, more + cs[1..], i, r);
        assert |done| <= i < |done| + |cs| && RelocatesPiece(o, done + cs, i, r);
      }
    }
  }

  lemma PieceHere(o: Options, done: seq<Chunk>, cs: seq<Chunk>, r: Reloc)
    requires cs != []
    ensures r in RelocOf(o, cs[0], |Bytes(o, done)|) <==> RelocatesPiece(o, done + cs, |done|, r)
  {
    hide Bytes;
    assert (done + cs)[..|done|] == done && (done + cs)[|done|] == cs[0];
  }

  /** At a relocation's offset the five bytes of its index are read back. */
  lemma IndexReads(o: Options, cs: seq<Chunk>, i: nat, r: Reloc)
    requires RelocatesPiece(o, cs, i, r)
    ensures var p := Bytes(o, cs);
            (if r.kind == TypeIndexLEB || r.kind == TableNumberLEB then ReadS32(p, r.offset)
             else ReadU32(p, r.offset))
                == Some(Parsed(cs[i].index, r.offset + 5))
  {
    hide ReadS32, ReadU32, FixedS32, FixedU32, Bytes;
    var p := Bytes(o, cs);
    assert cs == cs[..i] + ([cs[i]] + cs[i + 1..]);
    BytesJoin(o, cs[..i], [cs[i]] + cs[i + 1..]);
    BytesJoin(o, [cs[i]], cs[i + 1..]);
    OneChunk(o, cs[i], 0);
    assert p[r.offset..r.offset + |ChunkBytes(o, cs[i])|] == ChunkBytes(o, cs[i]);
    if SignedKind(cs[i].kind) {
      FixedS32Reads(cs[i].index, p, r.offset);
    } else {
      FixedU32Reads(cs[i].index, p, r.offset);
    }
  }

  // ----- the sections of the finished file -----

  datatype FileSection = FileSection(code: byte, content: seq<Chunk>)

  function Joined(o: Options, fs: seq<FileSection>): seq<byte> {
    if fs == [] then [] else SectionBytes(o, fs[0].code, Bytes(o, fs[0].content)) + Joined(o, fs[1..])
  }

  function AsFile(ss: seq<Section>): (fs: seq<FileSection>)
    ensures |fs| == |ss| && forall i | 0 <= i < |ss| :: fs[i] == FileSection(ss[i].code, ss[i].content)
  {
    seq(|ss|, i requires 0 <= i < |ss| => FileSection(ss[i].code, ss[i].content))
  }

  function BodiesContent(o: Options, bs: seq<seq<Chunk>>): seq<Chunk> {
    if bs == [] then [] else [Raw(SizeLeb(o, |Bytes(o, bs[0])|))] + bs[0] + BodiesContent(o, bs[1..])
  }

  /** The code section's content: the number of bodies, then each body behind its size. */
  function CodeContent(o: Options, bs: seq<seq<Chunk>>): seq<Chunk> {
    [Raw(EncodeU(|bs| % TWO_TO_32))] + BodiesContent(o, bs)
  }

  lemma {:induction false} BodiesAre(o: Options, bs: seq<seq<Chunk>>, base: nat)
    ensures Bytes(o, BodiesContent(o, bs)) == BodiesBytes(o, bs)
    ensures RelocsAt(o, BodiesContent(o, bs), base) == BodiesRelocs(o, bs, base)
    ensures Recording(o, BodiesContent(o, bs)) <==> AnyRecording(o, bs)
    decreases |bs|
  {
    hide SizeLeb, Bytes, RelocsAt, Recording, AnyRecording;
    NothingThere(o, base);
    if bs == [] {
      NoneRecording(o);
    } else {
      var leb := SizeLeb(o, |Bytes(o, bs[0])|);
      var head := [Raw(leb)] + bs[0];
      BodiesAre(o, bs[1..], base + |BodyBytes(o, bs[0])|);
      OneChunk(o, Raw(leb), base);
      BytesJoin(o, [Raw(leb)], bs[0]);
      BytesJoin(o, head, BodiesContent(o, bs[1..]));
      RelocsJoin(o, [Raw(leb)], bs[0], base);
      RelocsJoin(o, head, BodiesContent(o, bs[1..]), base);
      RecordingJoin(o, [Raw(leb)], bs[0]);
      RecordingJoin(o, head, BodiesContent(o, bs[1..]));
      assert [] + RelocsAt(o, bs[0], base + |leb|) == RelocsAt(o, bs[0], base + |leb|);
      AnyFirst(o, bs);
    }
  }

  lemma NothingThere(o: Options, base: nat)
    ensures Bytes(o, []) == [] && RelocsAt(o, [], base) == [] && !Recording(o, [])
  {}

  lemma CodeIs(o: Options, bs: seq<seq<Chunk>>)
    ensures Bytes(o, CodeContent(o, bs)) == CodePayload(o, bs)
    ensures RelocsAt(o, CodeContent(o, bs), 0) == BodiesRelocs(o, bs, |EncodeU(|bs| % TWO_TO_32)|)
    ensures Recording(o, CodeContent(o, bs)) <==> AnyRecording(o, bs)
  {
    hide EncodeU, Bytes, RelocsAt, Recording, BodiesContent, BodiesRelocs, AnyRecording;
    var head := EncodeU(|bs| % TWO_TO_32);
    BodiesAre(o, bs, |head|);
    OneChunk(o, Raw(head), 0);
    BytesJoin(o, [Raw(head)], BodiesContent(o, bs));
    RelocsJoin(o, [Raw(head)], BodiesContent(o, bs), 0);
    RecordingJoin(o, [Raw(head)], BodiesContent(o, bs));
    assert [] + BodiesRelocs(o, bs, |head|) == BodiesRelocs(o, bs, |head|);
  }

  function CodeFile(o: Options, m: Parts): seq<FileSection> {
    if m.bodies == [] then [] else [FileSection(10, CodeContent(o, m.bodies))]
  }

  function DataCountFile(m: Parts): seq<FileSection> {
    match m.dataCount
    case None => []
    case Some(n) => [FileSection(12, [Raw(EncodeU(n))])]
  }

  /** What stands before the metadata and the code in the finished file. */
  function KeptFile(m: Parts): seq<FileSection> {
    AsFile(m.before) + if KeepsDataCount(m) then DataCountFile(m) else []
  }

  /** The sections of the finished file. */
  function FileSections(o: Options, m: Parts): seq<FileSection> {
    KeptFile(m) + AsFile(m.metas) + CodeFile(o, m) + AsFile(m.after)
  }

  lemma {:induction false} JoinedJoin(o: Options, a: seq<FileSection>, b: seq<FileSection>)
    ensures Joined(o, a + b) == Joined(o, a) + Joined(o, b)
  {
    hide SectionBytes;
    if a == [] { assert a + b == b; } else {
      assert (a + b)[1..] == a[1..] + b;
      JoinedJoin(o, a[1..], b);
    }
  }

  lemma {:induction false} JoinedSections(o: Options, ss: seq<Section>)
    ensures Joined(o, AsFile(ss)) == SectionsBytes(o, ss)
  {
    hide SectionBytes;
    if ss != [] {
      assert AsFile(ss)[1..] == AsFile(ss[1..]);
      JoinedSections(o, ss[1..]);
    }
  }

  /** The file is the header and these sections, nothing else: the DataCount section gone if
      no instruction needs it, the metadata in front of the code. */
  lemma FileIsSections(o: Options, m: Parts)
    ensures FileBytes(o, m) == Header() + Joined(o, FileSections(o, m))
  {
    hide SectionsBytes, CodeBytes, Joined, AsFile, CodeFile, KeptBytes, KeptFile;
    JoinedJoin(o, KeptFile(m), AsFile(m.metas));
    JoinedJoin(o, KeptFile(m) + AsFile(m.metas), CodeFile(o, m));
    JoinedJoin(o, KeptFile(m) + AsFile(m.metas) + CodeFile(o, m), AsFile(m.after));
    JoinedSections(o, m.metas);
    JoinedSections(o, m.after);
    JoinedCode(o, m);
    JoinedKept(o, m);
    var (k, x, c, a) := (Joined(o, KeptFile(m)), SectionsBytes(o, m.metas), CodeBytes(o, m), SectionsBytes(o, m.after));
    assert Header() + (k + x + c + a) == Header() + k + x + c + a;
  }

  lemma JoinedKept(o: Options, m: Parts)
    ensures Header() + Joined(o, KeptFile(m)) == KeptBytes(o, m)
  {
    hide SectionsBytes, AsFile, Joined, DataCountFile, DataCountBytes, Header;
    var keep := if KeepsDataCount(m) then DataCountFile(m) else [];
    JoinedJoin(o, AsFile(m.before), keep);
    JoinedSections(o, m.before);
    JoinedDataCount(o, m);
    JoinedNone(o);
    assert Header() + SectionsBytes(o, m.before) + Joined(o, keep) == Header()
        + (SectionsBytes(o, m.before) + Joined(o, keep));
  }

  lemma JoinedNone(o: Options)
    ensures Joined(o, []) == []
  {}

  lemma JoinedDataCount(o: Options, m: Parts)
    ensures Joined(o, DataCountFile(m)) == DataCountBytes(o, m)
  {
    hide SectionsBytes, Joined, EncodeU;
    if m.dataCount.Some? {
      JoinedSections(o, [DataCountSection(m.dataCount.value)]);
      assert AsFile([DataCountSection(m.dataCount.value)]) == DataCountFile(m);
    }
    JoinedNone(o);
  }

  lemma JoinedCode(o: Options, m: Parts)
    ensures Joined(o, CodeFile(o, m)) == CodeBytes(o, m)
  {
    hide SectionBytes, Bytes;
    if m.bodies != [] {
      var f := CodeFile(o, m);
      CodeIs(o, m.bodies);
      assert f[1..] == [];
      JoinedNone(o);
      assert SectionBytes(o, 10, CodePayload(o, m.bodies)) + [] == SectionBytes(o, 10, CodePayload(o, m.bodies));
    }
  }

  // ----- reloc sections and the positions they name -----

  /** Each reloc section names a section of `f` by its position and holds exactly that section's
      relocations, no two name the same one, and every section of `f` with something to
      record, but for those from `a` up to `b`, is named. */
  ghost predicate Exact(o: Options, rs: seq<RelocSection>, f: seq<FileSection>, a: nat, b: nat) {
    && (forall i {:trigger rs[i]} | 0 <= i < |rs| ::
          && rs[i].sectionIndex < |f| && Recording(o, f[rs[i].sectionIndex].content)
          && rs[i].relocations == RelocsAt(o, f[rs[i].sectionIndex].content, 0)
          && !(a <= rs[i].sectionIndex < b))
    && (forall i, j | 0 <= i < j < |rs| :: rs[i].sectionIndex != rs[j].sectionIndex)
    && (forall n {:trigger f[n]} | 0 <= n < |f| && !(a <= n < b) && Recording(o, f[n].content) :: Named(rs, n))
  }

  ghost predicate Named(rs: seq<RelocSection>, n: nat) {
    exists i :: 0 <= i < |rs| && rs[i].sectionIndex == n
  }

  /** The reloc section last added to exists. */
  predicate HasCurrent(r: Relocs) { r.current.Some? ==> r.current.value < |r.sections| }

  lemma NamedMore(rs: seq<RelocSection>, s: RelocSection)
    ensures forall n: nat {:trigger Named(rs + [s], n)} :: Named(rs, n) || n == s.sectionIndex ==> Named(rs + [s], n)
  {
    var all := rs + [s];
    forall n: nat | Named(rs, n) || n == s.sectionIndex ensures Named(all, n) {
      if Named(rs, n) {
        var i :| 0 <= i < |rs| && rs[i].sectionIndex == n;
        assert all[i].sectionIndex == n;
      } else {
        assert all[|rs|].sectionIndex == n;
      }
    }
  }

  /** The first of the sections still to come is written. */
  lemma NewSection(o: Options, r: Relocs, s: RelocSection, n: nat, b: nat, f: seq<FileSection>)
    requires Exact(o, r.sections, f, n, b) && n < b <= |f| && Recording(o, f[n].content)
    requires s.sectionIndex == n && s.relocations == RelocsAt(o, f[n].content, 0)
    ensures Exact(o, r.sections + [s], f, n + 1, b)
  {
    hide Recording, Named;
    NamedMore(r.sections, s);
    var rs := r.sections + [s];
    forall i, j | 0 <= i < j < |rs| ensures rs[i].sectionIndex != rs[j].sectionIndex {
      assert rs[i] == r.sections[i];
      if j < |r.sections| { assert rs[j] == r.sections[j]; }
    }
    forall k | 0 <= k < |f| && !(n + 1 <= k < b) && Recording(o, f[k].content) ensures Named(rs, k) {
      if k != n { assert Named(r.sections, k); }
    }
  }

  lemma RecordedExact(o: Options, r: Relocs, s: Section, n: nat, b: nat, f: seq<FileSection>)
    requires Exact(o, r.sections, f, n, b) && HasCurrent(r) && n < b <= |f| && f[n].content == s.content
    ensures var r1 := Recorded(o, r, s.name, n, s.content, 0); Exact(o, r1.sections, f, n + 1, b) && HasCurrent(r1)
  {
    hide Recording;
    if Recording(o, s.content) {
      var new1 := RelocSection(s.name, n, RelocsAt(o, s.content, 0));
      assert [] + RelocsAt(o, s.content, 0) == RelocsAt(o, s.content, 0);
      if r.current.Some? { var c := r.sections[r.current.value]; }
      var r1 := Recorded(o, r, s.name, n, s.content, 0);
      assert r1.sections == r.sections + [new1];
      NewSection(o, r, new1, n, b, f);
    }
  }

  lemma {:induction false} AllExact(o: Options, r: Relocs, ss: seq<Section>, first: nat, f: seq<FileSection>)
    requires Exact(o, r.sections, f, first, first + |ss|) && HasCurrent(r) && first + |ss| <= |f|
    requires forall i | 0 <= i < |ss| :: f[first + i].content == ss[i].content
    ensures var r1 := RecordedAll(o, r, ss, first);
            Exact(o, r1.sections, f, first + |ss|, first + |ss|) && HasCurrent(r1)
    decreases |ss|
  {
    hide Exact, Recorded, HasCurrent;
    if ss != [] {
      assert f[first + 0].content == ss[0].content;
      RecordedExact(o, r, ss[0], first, first + |ss|, f);
      var r1 := Recorded(o, r, ss[0].name, first, ss[0].content, 0);
      forall i | 0 <= i < |ss[1..]| ensures f[first + 1 + i].content == ss[1..][i].content {
        assert f[first + (i + 1)].content == ss[i + 1].content;
      }
      AllExact(o, r1, ss[1..], first + 1, f);
    }
  }

  /** More sections behind, none of them recorded yet. */
  lemma ExactMore(o: Options, rs: seq<RelocSection>, f: seq<FileSection>, g: seq<FileSection>, a: nat)
    requires Exact(o, rs, f, a, a)
    ensures Exact(o, rs, f + g, |f|, |f| + |g|)
  {
    hide Recording, Named;
    forall i | 0 <= i < |rs| ensures (f + g)[rs[i].sectionIndex] == f[rs[i].sectionIndex] { var s := rs[i]; }
    forall n | 0 <= n < |f + g| && !(|f| <= n < |f| + |g|) && Recording(o, (f + g)[n].content) ensures Named(rs, n) {
      assert (f + g)[n] == f[n];
    }
  }

  lemma ExactDone(o: Options, rs: seq<RelocSection>, f: seq<FileSection>, a: nat, b: nat)
    requires Exact(o, rs, f, a, a)
    ensures Exact(o, rs, f, b, b)
  {}

  /** The condition for a whole module: the fixups of the code section's first bodies find no
      relocation of the section before in the ranges they shift. */
  predicate QuietModule(o: Options, m: Parts) {
    Quiet(o, CurrentRelocs(BeforeCode(o, m).0), m.bodies, |EncodeU(|m.bodies| % TWO_TO_32)|)
  }

  lemma BeforeExact(o: Options, m: Parts)
    ensures var (r, n) := BeforeCode(o, m);
            var f := AsFile(m.before) + DataCountFile(m);
            && n == |f| && Exact(o, r.sections, f, n, n) && HasCurrent(r) && Bounded(r, |m.before|)
  {
    hide EncodeU, RecordedAll, Recording, Exact;
    var fb := AsFile(m.before);
    BoundedEmpty();
    AllBounded(o, Relocs([], None), m.before, 0);
    assert Exact(o, [], fb, 0, |fb|) by { NothingExact(o, fb); }
    AllExact(o, Relocs([], None), m.before, 0, fb);
    var r := RecordedAll(o, Relocs([], None), m.before, 0);
    if m.dataCount.Some? {
      var k := m.dataCount.value;
      ExactMore(o, r.sections, fb, DataCountFile(m), |fb|);
      assert (fb + DataCountFile(m))[|fb|].content == [Raw(EncodeU(k))];
      RecordedExact(o, r, DataCountSection(k), |fb|, |fb| + 1, fb + DataCountFile(m));
      NoIndices(o, r, k, |m.before|);
    } else {
      assert fb + [] == fb;
    }
  }

  lemma NothingExact(o: Options, f: seq<FileSection>)
    ensures Exact(o, [], f, 0, |f|)
  {}

  /** Up to and including the code section, before anything is removed or inserted. */
  lemma CodeExact(o: Options, m: Parts)
    requires QuietModule(o, m)
    ensures var (r, n) := AfterCode(o, m);
            var f := AsFile(m.before) + DataCountFile(m) + CodeFile(o, m);
            && n == |f| && Exact(o, r.sections, f, n, n) && HasCurrent(r)
            && (m.dataCount.Some? ==> forall i | 0 <= i < |r.sections| :: r.sections[i].sectionIndex != |m.before|)
  {
    hide EncodeU, CodeContent, RecordedAll, BodySteps, BodiesRelocs, DataCountFile, AsFile, Recorded, Recording,
        Quiet, AnyRecording, Exact, BeforeCode, DataCountSection;
    BeforeExact(o, m);
    var (r0, n) := BeforeCode(o, m);
    var fb := AsFile(m.before) + DataCountFile(m);
    DataCountFiles(m);
    if m.bodies == [] {
      assert fb + [] == fb;
    } else {
      var f := fb + CodeFile(o, m);
      BoundedMore(r0, |m.before|, n);
      CodeRelocsSurvive(o, r0, "Code", n, m.bodies, |EncodeU(|m.bodies| % TWO_TO_32)|);
      CodeIs(o, m.bodies);
      ExactMore(o, r0.sections, fb, CodeFile(o, m), n);
      assert f[n].content == CodeContent(o, m.bodies);
      if AnyRecording(o, m.bodies) {
        var s := RelocSection("Code", n, BodiesRelocs(o, m.bodies, |EncodeU(|m.bodies| % TWO_TO_32)|));
        NewSection(o, r0, s, n, n + 1, f);
      } else {
        NotRecorded(o, r0.sections, f, n);
      }
    }
  }

  lemma DataCountFiles(m: Parts)
    ensures |AsFile(m.before)| == |m.before| && |DataCountFile(m)| == if m.dataCount.Some? then 1 else 0
  {}

  lemma BoundedMore(r: Relocs, a: nat, b: nat)
    requires Bounded(r, a) && a <= b
    ensures Bounded(r, b)
  {}

  lemma NotRecorded(o: Options, rs: seq<RelocSection>, f: seq<FileSection>, n: nat)
    requires Exact(o, rs, f, n, n + 1) && n < |f| && !Recording(o, f[n].content)
    ensures Exact(o, rs, f, n + 1, n + 1)
  {
    hide Recording, Named;
  }

  /** Renumbering the reloc sections that name `from`. */
  lemma NamedRenumbered(rs: seq<RelocSection>, from: nat, to: nat)
    ensures forall n: nat {:trigger Named(Renumbered(rs, from, to), n)} :: Named(rs, n) && n != from ==>
        Named(Renumbered(rs, from, to), n)
    ensures Named(rs, from) ==> Named(Renumbered(rs, from, to), to)
  {
    var all := Renumbered(rs, from, to);
    forall n: nat | Named(rs, n) ensures Named(all, if n == from then to else n) {
      var i :| 0 <= i < |rs| && rs[i].sectionIndex == n;
      assert all[i].sectionIndex == if n == from then to else n;
    }
  }

  /** A section with nothing to record goes, the one behind it moves up. */
  lemma RemoveExact(o: Options, rs: seq<RelocSection>, a: seq<FileSection>, gone: FileSection, code: seq<FileSection>)
    requires Exact(o, rs, a + [gone] + code, |a| + 1 + |code|, |a| + 1 + |code|) && |code| <= 1
    requires forall i | 0 <= i < |rs| :: rs[i].sectionIndex != |a|
    ensures var rs1 := Renumbered(rs, |a| + |code|, |a| + |code| - 1);
        Exact(o, rs1, a + code, |a| + |code|, |a| + |code|)
  {
    hide Recording, Named, RelocsAt;
    var f, g := a + [gone] + code, a + code;
    if code == [] {
      assert Renumbered(rs, |a|, |a| - 1) == rs;
      forall i | 0 <= i < |rs| ensures rs[i].sectionIndex < |a|
          && f[rs[i].sectionIndex] == g[rs[i].sectionIndex] { var s := rs[i]; }
      forall n | 0 <= n < |g| && Recording(o, g[n].content) ensures Named(rs, n) { assert g[n] == f[n]; }
    } else {
      var rs1 := Renumbered(rs, |a| + 1, |a|);
      NamedRenumbered(rs, |a| + 1, |a|);
      forall i | 0 <= i < |rs1|
        ensures rs1[i].sectionIndex < |g| && g[rs1[i].sectionIndex] == f[rs[i].sectionIndex]
            && rs1[i].relocations == rs[i].relocations
      {
        assert rs[i].sectionIndex < |f|;
      }
      forall n | 0 <= n < |g| && Recording(o, g[n].content) ensures Named(rs1, n) {
        assert g[n] == f[if n < |a| then n else n + 1];
      }
    }
  }

  /** Removing the DataCount section. */
  lemma RemovalExact(o: Options, m: Parts)
    requires QuietModule(o, m)
    ensures var (r, n) := AfterRemoval(o, m);
            var f := KeptFile(m) + CodeFile(o, m);
            n == |f| && Exact(o, r.sections, f, n, n) && HasCurrent(r)
  {
    hide AfterCode, QuietModule, Exact, AsFile, CodeContent, Renumbered;
    CodeExact(o, m);
    DataCountFiles(m);
    var (r, n) := AfterCode(o, m);
    if m.dataCount.Some? && !m.usesData {
      var gone := DataCountFile(m)[0];
      assert DataCountFile(m) == [gone];
      assert KeptFile(m) == AsFile(m.before);
      RemoveExact(o, r.sections, AsFile(m.before), gone, CodeFile(o, m));
    } else {
      assert KeptFile(m) + CodeFile(o, m) == AsFile(m.before) + DataCountFile(m) + CodeFile(o, m);
    }
  }

  /** The code section's number moves up with it. */
  lemma MakeRoom(o: Options, rs: seq<RelocSection>, kept: seq<FileSection>, more: seq<FileSection>,
      code: seq<FileSection>)
    requires Exact(o, rs, kept + code, |kept| + 1, |kept| + 1) && |code| == 1
    ensures Exact(o, Renumbered(rs, |kept|, |kept| + |more|), kept + more + code, |kept|, |kept| + |more|)
  {
    hide Recording, Named, RelocsAt;
    var rs1 := Renumbered(rs, |kept|, |kept| + |more|);
    var f, g := kept + code, kept + more + code;
    NamedRenumbered(rs, |kept|, |kept| + |more|);
    forall i | 0 <= i < |rs1|
      ensures rs1[i].sectionIndex < |g| && g[rs1[i].sectionIndex] == f[rs[i].sectionIndex]
      ensures rs1[i].relocations == rs[i].relocations && !(|kept| <= rs1[i].sectionIndex < |kept| + |more|)
    {
      assert rs[i].sectionIndex < |f|;
    }
    forall n | 0 <= n < |g| && !(|kept| <= n < |kept| + |more|) && Recording(o, g[n].content) ensures Named(rs1, n) {
      assert g[n] == f[if n < |kept| then n else |kept|];
    }
  }

  /** Inserting the metadata sections. */
  lemma MetasExact(o: Options, m: Parts)
    requires QuietModule(o, m) && (m.metas != [] ==> m.bodies != [])
    ensures var (r, n) := AfterMetas(o, m);
            var f := KeptFile(m) + AsFile(m.metas) + CodeFile(o, m);
            n == |f| && Exact(o, r.sections, f, n, n) && HasCurrent(r)
  {
    hide AfterRemoval, QuietModule, RecordedAll, KeptFile, Renumbered, Exact, CodeContent;
    RemovalExact(o, m);
    var (r, n) := AfterRemoval(o, m);
    var kept := KeptFile(m);
    var g := kept + AsFile(m.metas) + CodeFile(o, m);
    if m.metas == [] {
      assert g == kept + CodeFile(o, m);
    } else {
      var r1 := r.(sections := Renumbered(r.sections, n - 1, n - 1 + |m.metas|));
      MakeRoom(o, r.sections, kept, AsFile(m.metas), CodeFile(o, m));
      forall i | 0 <= i < |m.metas| ensures g[n - 1 + i].content == m.metas[i].content {
        assert g[n - 1 + i] == AsFile(m.metas)[i];
      }
      AllExact(o, r1, m.metas, n - 1, g);
      ExactDone(o, RecordedAll(o, r1, m.metas, n - 1).sections, g, n - 1 + |m.metas|, n + |m.metas|);
    }
  }

  lemma QuietSurvives(o: Options, m: Parts)
    requires QuietModule(o, m) && (m.metas != [] ==> m.bodies != [])
    ensures var f := FileSections(o, m); Exact(o, ModuleRelocs(o, m).sections, f, |f|, |f|)
  {
    hide AfterMetas, QuietModule, RecordedAll, KeptFile, CodeFile, Exact;
    MetasExact(o, m);
    var (r, n) := AfterMetas(o, m);
    var f := KeptFile(m) + AsFile(m.metas) + CodeFile(o, m);
    var g := FileSections(o, m);
    assert g == f + AsFile(m.after);
    ExactMore(o, r.sections, f, AsFile(m.after), n);
    forall i | 0 <= i < |m.after| ensures g[n + i].content == m.after[i].content {
      assert g[n + i] == AsFile(m.after)[i];
    }
    AllExact(o, r, m.after, n, g);
  }

  // ----- a relocation once moved stays moved -----

  /** Relocation `j` of reloc section `c`, which is for a section before the code, has moved. */
  ghost predicate Strayed(o: Options, m: Parts, rs: seq<RelocSection>, c: nat, j: nat) {
    && c < |rs| && rs[c].sectionIndex < |m.before|
    && var right := RelocsAt(o, m.before[rs[c].sectionIndex].content, 0);
       j < |rs[c].relocations| && j < |right| && rs[c].relocations[j].offset > right[j].offset
  }

  lemma {:induction false} RecordedStrayed(o: Options, m: Parts, r: Relocs, ss: seq<Section>, first: nat, c: nat,
      j: nat)
    requires Strayed(o, m, r.sections, c, j)
    ensures Strayed(o, m, RecordedAll(o, r, ss, first).sections, c, j)
    decreases |ss|
  {
    hide RelocsAt, Recording;
    if ss != [] {
      RecordedStrayed(o, m, Recorded(o, r, ss[0].name, first, ss[0].content, 0), ss[1..], first + 1, c, j);
    }
  }

  lemma RenumberedStrayed(o: Options, m: Parts, rs: seq<RelocSection>, from: nat, to: int, c: nat, j: nat)
    requires Strayed(o, m, rs, c, j) && from >= |m.before|
    ensures Strayed(o, m, Renumbered(rs, from, to), c, j)
  {
    hide RelocsAt;
  }

  lemma NotQuietStrays(o: Options, m: Parts) returns (c: nat, j: nat)
    requires !QuietModule(o, m)
    ensures Strayed(o, m, AfterCode(o, m).0.sections, c, j) && m.bodies != []
  {
    hide EncodeU, RecordedAll, BodySteps, Recorded, Recording, RelocsAt;
    BeforeExact(o, m);
    var (r, n) := BeforeCode(o, m);
    hide BeforeCode;
    BoundedMore(r, |m.before|, n);
    c, j := NotQuiet(o, r, "Code", n, m.bodies, |EncodeU(|m.bodies| % TWO_TO_32)|);
    assert r.sections[c].sectionIndex < |m.before|;
  }

  lemma StrayedInexact(o: Options, m: Parts, rs: seq<RelocSection>, c: nat, j: nat)
    requires Strayed(o, m, rs, c, j)
    ensures var f := FileSections(o, m); !Exact(o, rs, f, |f|, |f|)
  {
    hide RelocsAt, Recording, CodeContent;
    var f := FileSections(o, m);
    var x := rs[c].sectionIndex;
    assert f[x] == AsFile(m.before)[x];
  }

  /** The main result: in the finished file every section with an index to record has one reloc
      section, which names it by its final position and holds the relocations of its indices
      with symbols, all of them and no other, and there are no more reloc sections, exactly if
      the fixups of the code section's first bodies find nothing to shift before. */
  lemma RelocationsSurvive(o: Options, m: Parts)
    requires m.metas != [] ==> m.bodies != []
    ensures var f := FileSections(o, m); Exact(o, ModuleRelocs(o, m).sections, f, |f|, |f|) <==> QuietModule(o, m)
  {
    hide QuietModule, RecordedAll, FileSections, Exact, Strayed, Renumbered, AfterCode;
    if QuietModule(o, m) {
      QuietSurvives(o, m);
    } else {
      var c, j := NotQuietStrays(o, m);
      var (r, n) := AfterCode(o, m);
      CodeCount(o, m);
      RenumberedStrayed(o, m, r.sections, n - 1, n - 2, c, j);
      var (r1, n1) := AfterRemoval(o, m);
      RenumberedStrayed(o, m, r1.sections, n1 - 1, n1 - 1 + |m.metas|, c, j);
      RecordedStrayed(o, m, r1.(sections := Renumbered(r1.sections, n1 - 1, n1 - 1 + |m.metas|)), m.metas, n1 - 1, c,
          j);
      var (r2, n2) := AfterMetas(o, m);
      RecordedStrayed(o, m, r2, m.after, n2, c, j);
      StrayedInexact(o, m, ModuleRelocs(o, m).sections, c, j);
    }
  }

  lemma CodeCount(o: Options, m: Parts)
    requires m.bodies != []
    ensures AfterCode(o, m).1 == |m.before| + (if m.dataCount.Some? then 1 else 0) + 1
  {
    hide BodySteps, RecordedAll, Recorded;
  }

  // ----- a shift that finds another section's relocation -----

  /** The symbols of a module with one function, one imported global and one of its own. */
  function StaleSymbol(kind: RelocType, index: u32): Option<nat> {
    match kind
    case FuncIndexLEB => if index < 1 then Some(0) else None
    case GlobalIndexLEB => if index < 2 then Some(1 + index) else None
    case TypeIndexLEB => Some(index)
    case TableNumberLEB => None
  }

  /** Shortest length fields, relocations, no reference types. */
  const STALE_OPTIONS := Options(true, true, false, StaleSymbol)

  /** One function type, () -> (). */
  const STALE_TYPE := Section(1, "Type", [Raw([1, 0x60, 0, 0])])

  /** The constant global "m" "g" of type i32. */
  const STALE_IMPORT := Section(2, "Import", [Raw([1, 1, 0x6d, 1, 0x67, 3, 0x7f, 0])])

  /** One function, of type 0. */
  const STALE_FUNCTION := Section(3, "Function", [Raw([1, 0])])

  /** A constant global of type i32 with the value of the imported one, whose index is at offset 4. */
  const STALE_GLOBAL := Section(6, "Global", [Raw([1, 0x7f, 0, 0x23]), Indexed(GlobalIndexLEB, 0), Raw([0x0b])])

  /** No locals, 126 times nop, and end: 128 bytes without indices, whose size takes two bytes. */
  const STALE_BODY := [Raw([0] + seq(126, i => 1) + [0x0b])]

  /** (module (import "m" "g" (global i32)) (global i32 (global.get 0)) (func nop ... nop)) */
  const STALE_MODULE := Parts([STALE_TYPE, STALE_IMPORT, STALE_FUNCTION, STALE_GLOBAL], None, false, [STALE_BODY], [],
      [])

  const STALE_RELOC := Reloc(GlobalIndexLEB, 4, 1)

  const STALE_RELOCS := Relocs([RelocSection("Global", 3, [STALE_RELOC])], Some(0))

  lemma StaleGlobal()
    ensures RelocsAt(STALE_OPTIONS, STALE_GLOBAL.content, 0) == [STALE_RELOC]
    ensures Recording(STALE_OPTIONS, STALE_GLOBAL.content)
  {
    var (o, cs) := (STALE_OPTIONS, STALE_GLOBAL.content);
    assert cs[1].Indexed?;
    assert cs[1..] == [Indexed(GlobalIndexLEB, 0), Raw([0x0b])] && cs[1..][1..] == [Raw([0x0b])];
    assert RelocsAt(o, [Raw([0x0b])], 9) == [];
    assert RelocsAt(o, cs[1..], 4) == [STALE_RELOC];
  }

  lemma StaleBodyBytes()
    ensures |Bytes(STALE_OPTIONS, STALE_BODY)| == 128 && |SizeLeb(STALE_OPTIONS, 128)| == 2
        && !Recording(STALE_OPTIONS, STALE_BODY)
    ensures |EncodeU(1)| == 1
  {
    OneChunk(STALE_OPTIONS, STALE_BODY[0], 0);
    assert STALE_BODY == [STALE_BODY[0]];
    assert EncodeU(128 / 128) == [1];
  }

  /** A valid module as it is written: the fixup of the body's size moves the relocation of the
      global section, so that in the finished file it no longer stands where its index is. */
  lemma StaleShift()
    ensures var (o, m) := (STALE_OPTIONS, STALE_MODULE);
            var f := FileSections(o, m);
            && !QuietModule(o, m) && !Exact(o, ModuleRelocs(o, m).sections, f, |f|, |f|)
            && ModuleRelocs(o, m).sections == [RelocSection("Global", 3, [STALE_RELOC.(offset := 5)])]
            && RelocatesPiece(o, f[3].content, 1, STALE_RELOC)
  {
    hide EncodeU, Bytes, RelocsAt, Recording, SizeLeb;
    var (o, m) := (STALE_OPTIONS, STALE_MODULE);
    StaleGlobal();
    StaleBodyBytes();
    StaleRecorded();
    StaleFixed();
    assert FileSections(o, m)[3] == FileSection(6, STALE_GLOBAL.content);
    StalePiece();
  }

  lemma StalePiece()
    ensures RelocatesPiece(STALE_OPTIONS, STALE_GLOBAL.content, 1, STALE_RELOC)
  {
    OneChunk(STALE_OPTIONS, Raw([1, 0x7f, 0, 0x23]), 0);
    assert STALE_GLOBAL.content[..1] == [Raw([1, 0x7f, 0, 0x23])];
  }

  /** A section of plain bytes records nothing. */
  lemma RawRecords(r: Relocs, s: Section, ss: seq<Section>, first: nat)
    requires |s.content| == 1 && s.content[0].Raw?
    ensures RecordedAll(STALE_OPTIONS, r, [s] + ss, first) == RecordedAll(STALE_OPTIONS, r, ss, first + 1)
  {
    assert ([s] + ss)[1..] == ss;
  }

  lemma StaleRecorded()
    ensures BeforeCode(STALE_OPTIONS, STALE_MODULE) == (STALE_RELOCS, 4)
  {
    hide RelocsAt, Recording, RecordedAll;
    StaleGlobal();
    var (o, none, last) := (STALE_OPTIONS, Relocs([], None), [STALE_GLOBAL]);
    RawRecords(none, STALE_FUNCTION, last, 2);
    RawRecords(none, STALE_IMPORT, [STALE_FUNCTION] + last, 1);
    RawRecords(none, STALE_TYPE, [STALE_IMPORT] + ([STALE_FUNCTION] + last), 0);
    assert STALE_MODULE.before == [STALE_TYPE] + ([STALE_IMPORT] + ([STALE_FUNCTION] + last));
    LastRecorded(none, STALE_GLOBAL, 3);
    var r := Recorded(o, none, "Global", 3, STALE_GLOBAL.content, 0);
    assert [] + [STALE_RELOC] == [STALE_RELOC];
    assert r.sections == STALE_RELOCS.sections;
  }

  lemma LastRecorded(r: Relocs, s: Section, first: nat)
    ensures RecordedAll(STALE_OPTIONS, r, [s], first) == Recorded(STALE_OPTIONS, r, s.name, first, s.content, 0)
  {
    hide Recorded;
    assert [s][1..] == [];
  }

  lemma StaleFixed()
    requires BeforeCode(STALE_OPTIONS, STALE_MODULE) == (STALE_RELOCS, 4)
    ensures ModuleRelocs(STALE_OPTIONS, STALE_MODULE).sections
        == [RelocSection("Global", 3, [STALE_RELOC.(offset := 5)])]
    ensures !QuietModule(STALE_OPTIONS, STALE_MODULE)
  {
    hide Bytes, RelocsAt, Recording, SizeLeb, EncodeU, BeforeCode;
    var (o, m, r) := (STALE_OPTIONS, STALE_MODULE, STALE_RELOCS);
    StaleBodyBytes();
    var rs := r.sections[0].relocations;
    assert rs[1..] == [];
    assert Shifted(rs, 1, 130, 1) == [STALE_RELOC.(offset := 5)];
    var r1 := BodyStep(o, r, "Code", 4, STALE_BODY, 1);
    assert r1.sections == [RelocSection("Global", 3, [STALE_RELOC.(offset := 5)])];
    assert m.bodies[1..] == [];
    assert BodySteps(o, r1, "Code", 4, m.bodies[1..], 1 + |BodyBytes(o, STALE_BODY)|) == r1;
    assert BodySteps(o, r, "Code", 4, m.bodies, 1) == r1;
    assert AfterCode(o, m) == (r1, 5);
    assert rs[0] in CurrentRelocs(r) && Delta(o, STALE_BODY) == 1;
  }

  // ----- sizes -----

  /** A section's length field reads back as the exact payload length, for payloads below 2^32
      bytes, in both modes. */
  lemma SizeReadsBack(o: Options, code: byte, payload: seq<byte>, p: seq<byte>, i: nat)
    requires |payload| < TWO_TO_32 && Stands(p, i, SectionBytes(o, code, payload))
    ensures var leb := SizeLeb(o, |payload|);
            && ReadU32(p, i + 1) == Some(Parsed(|payload|, i + 1 + |leb|))
            && Stands(p, i + 1 + |leb|, payload)
  {
    hide Stands, ReadU32, EncodeU, FixedU32;
    assert [code] + (SizeLeb(o, |payload|) + payload) == SectionBytes(o, code, payload);
    StandsParts(p, i, [code], SizeLeb(o, |payload|) + payload);
    StandsParts(p, i + 1, SizeLeb(o, |payload|), payload);
    if o.canonicalLebs { RoundTripU32(|payload|, p, i + 1); } else { FixedU32Reads(|payload|, p, i + 1); }
  }
}

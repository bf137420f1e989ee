/** The section loop on the files that the writer puts out. */
module WrittenFiles {
  import opened Leb128
  import opened BinaryWriter
  import opened Relocations
  import Sections
  import SectionOrder
  import Immediates

  /** Where sections that begin at `at` have their codes, contents and ends. */
  function SpansOf(o: Options, fs: seq<FileSection>, at: nat): seq<Sections.Span> {
    if fs == [] then []
    else
      var payload := |Bytes(o, fs[0].content)|;
      var body := at + 1 + |SizeLeb(o, payload)|;
      [Sections.Span(fs[0].code, at, body, body + payload)] + SpansOf(o, fs[1..], body + payload)
  }

  /** Sections whose codes there are and whose sizes can be written. */
  predicate Sized(o: Options, fs: seq<FileSection>) {
    forall i | 0 <= i < |fs| :: fs[i].code < Sections.SECTION_COUNT && |Bytes(o, fs[i].content)| < TWO_TO_32
  }

  lemma {:induction false} SpansTile(o: Options, fs: seq<FileSection>, p: seq<byte>, at: nat)
    requires Sized(o, fs) && Stands(p, at, Joined(o, fs)) && at + |Joined(o, fs)| == |p|
    ensures var spans := SpansOf(o, fs, at);
            && |spans| == |fs| && Sections.Tiles(spans, at, |p|)
            && forall i | 0 <= i < |spans| :: spans[i].code == fs[i].code && Sections.InFile(p, spans[i])
    decreases |fs|
  {
    hide SizeLeb, Bytes, ReadU32;
    if fs != [] {
      var payload := Bytes(o, fs[0].content);
      var first := SectionBytes(o, fs[0].code, payload);
      var next := at + |first|;
      Immediates.StandsSplit(p, at, first, Joined(o, fs[1..]));
      SizeReadsBack(o, fs[0].code, payload, p, at);
      forall i | 0 <= i < |fs[1..]| ensures fs[1..][i] == fs[i + 1] {}
      SpansTile(o, fs[1..], p, next);
      var spans := SpansOf(o, fs, at);
      assert spans[1..] == SpansOf(o, fs[1..], next);
      forall i | 0 <= i < |spans| ensures spans[i].code == fs[i].code && Sections.InFile(p, spans[i]) {
        if i > 0 { assert spans[i] == spans[1..][i - 1]; }
      }
    }
  }

  /** A written file is cut into the writer's sections, whatever is in them; so the loop accepts it
      exactly if each is well read, has the feature it needs, and the codes are in order. */
  lemma FileAccepted(o: Options, m: Parts, q: Sections.Options)
    requires Sized(o, FileSections(o, m))
    ensures |FileBytes(o, m)| >= 8 && FileBytes(o, m)[..8] == [0x00, 0x61, 0x73, 0x6d, 0x01, 0x00, 0x00, 0x00]
    ensures var (p, spans) := (FileBytes(o, m), SpansOf(o, FileSections(o, m), 8));
            Sections.ReadAll(q, p, SectionOrder.START) == (true, spans) <==>
              && (forall i | 0 <= i < |spans| ::
                    Sections.WellRead(q, p, spans[i]) && SectionOrder.Enabled(q, spans[i].code))
              && SectionOrder.Sub(SectionOrder.Known(spans), SectionOrder.REQUIRED)
              && SectionOrder.NamesLast(q, p, spans, false)
  {
    hide Sections.ReadAll, Sections.WellRead, Sections.InFile, SectionOrder.Sub, SectionOrder.Known, SizeLeb, Bytes,
        Sized, FileSections;
    var (fs, p) := (FileSections(o, m), FileBytes(o, m));
    FileIsSections(o, m);
    assert p[8..8 + |Joined(o, fs)|] == Joined(o, fs);
    SpansTile(o, fs, p, 8);
    SectionOrder.AcceptsExactly(q, p, SpansOf(o, fs, 8));
  }
}

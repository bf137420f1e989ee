/** What the size fixups of function bodies do to the relocations recorded so far. */
module Backpatching {
  import opened Ir
  import opened BinaryWriter

  // ----- the shifts made for body sizes -----

  /** The relocations of content lie within it. */
  lemma {:induction false} RelocsWithin(o: Options, cs: seq<Chunk>, base: nat)
    ensures forall r | r in RelocsAt(o, cs, base) :: base <= r.offset < base + |Bytes(o, cs)|
    decreases |cs|
  {
    if cs != [] {
      RelocsWithin(o, cs[1..], base + |ChunkBytes(o, cs[0])|);
    }
  }

  lemma {:induction false} ShiftedJoin(a: seq<Reloc>, b: seq<Reloc>, start: nat, end: nat, delta: nat)
    ensures Shifted(a + b, start, end, delta) == Shifted(a, start, end, delta) + Shifted(b, start, end, delta)
  {
    if a == [] { assert a + b == b; } else {
      assert (a + b)[1..] == a[1..] + b;
      ShiftedJoin(a[1..], b, start, end, delta);
    }
  }

  /** A shift changes nothing exactly when it is by nothing or nothing is in range. */
  lemma {:induction false} ShiftedSame(rs: seq<Reloc>, start: nat, end: nat, delta: nat)
    ensures Shifted(rs, start, end, delta) == rs <==> delta == 0 || forall r | r in rs :: !(start <= r.offset <= end)
  {
    if rs != [] {
      ShiftedSame(rs[1..], start, end, delta);
      assert rs == [rs[0]] + rs[1..];
      assert rs[0].(offset := rs[0].offset) == rs[0];
    }
  }

  /** Content moved by `delta` has its relocations moved by `delta`. */
  lemma {:induction false} ShiftedContent(o: Options, cs: seq<Chunk>, base: nat, start: nat, end: nat, delta: nat)
    requires start <= base && base + |Bytes(o, cs)| <= end
    ensures Shifted(RelocsAt(o, cs, base), start, end, delta) == RelocsAt(o, cs, base + delta)
    decreases |cs|
  {
    hide ChunkBytes;
    if cs != [] {
      var first := RelocOf(o, cs[0], base);
      ShiftedJoin(first, RelocsAt(o, cs[1..], base + |ChunkBytes(o, cs[0])|), start, end, delta);
      ShiftedContent(o, cs[1..], base + |ChunkBytes(o, cs[0])|, start, end, delta);
      if first != [] { assert first[1..] == []; }
    }
  }

  function Delta(o: Options, b: seq<Chunk>): nat { |SizeLeb(o, |Bytes(o, b)|)| - Space(o) }

  /** The relocations of the reloc section last added to. */
  function CurrentRelocs(r: Relocs): seq<Reloc> {
    if r.current.Some? && r.current.value < |r.sections| then r.sections[r.current.value].relocations else []
  }

  /** No size fixup that comes before the code section's first relocation finds a relocation of
      an earlier section in the range it shifts. */
  predicate Quiet(o: Options, rs: seq<Reloc>, bs: seq<seq<Chunk>>, base: nat)
    decreases |bs|
  {
    bs == [] || Recording(o, bs[0]) ||
    ((Delta(o, bs[0]) == 0 || forall r | r in rs :: !(base <= r.offset <= base + Space(o) + |Bytes(o, bs[0])|))
     && Quiet(o, rs, bs[1..], base + |BodyBytes(o, bs[0])|))
  }

  predicate AnyRecording(o: Options, bs: seq<seq<Chunk>>) {
    exists i :: 0 <= i < |bs| && Recording(o, bs[i])
  }

  /** A body whose relocations are added to the code section's own. */
  lemma OwnBody(o: Options, r: Relocs, name: string, count: nat, b: seq<Chunk>, base: nat)
    requires r.current.Some? && r.current.value < |r.sections| && r.sections[r.current.value].sectionIndex == count
    requires forall x | x in CurrentRelocs(r) :: x.offset < base
    ensures BodyStep(o, r, name, count, b, base) == Added(r, RelocsAt(o, b, base + |SizeLeb(o, |Bytes(o, b)|)|))
  {
    hide Recording, SizeLeb, Bytes, Recorded, Added, ShiftedCurrent, Shifted;
    var start := base + Space(o);
    var (end, d) := (start + |Bytes(o, b)|, Delta(o, b));
    OwnRecorded(o, r, name, count, b, start);
    ShiftedAdded(r, RelocsAt(o, b, start), base, end, d);
    ShiftedContent(o, b, start, base, end, d);
  }

  lemma OwnRecorded(o: Options, r: Relocs, name: string, count: nat, b: seq<Chunk>, base: nat)
    requires r.current.Some? && r.current.value < |r.sections| && r.sections[r.current.value].sectionIndex == count
    ensures Recorded(o, r, name, count, b, base) == Added(r, RelocsAt(o, b, base))
  {
    hide Recording, RelocsAt, Added;
    if !Recording(o, b) {
      NoRelocs(o, b, base);
      AddedNone(r);
    }
  }

  lemma AddedNone(r: Relocs)
    ensures Added(r, []) == r
  {
    if r.current.Some? && r.current.value < |r.sections| {
      var s := r.sections[r.current.value];
      assert s.relocations + [] == s.relocations && r.sections[r.current.value := s] == r.sections;
    }
  }

  lemma AddedCurrent(r: Relocs, mine: seq<Reloc>)
    requires r.current.Some? && r.current.value < |r.sections|
    ensures var r1 := Added(r, mine);
            && r1.current == r.current && |r1.sections| == |r.sections|
            && r1.sections[r.current.value].sectionIndex == r.sections[r.current.value].sectionIndex
            && CurrentRelocs(r1) == CurrentRelocs(r) + mine
  {}

  /** A shift of relocations that were added behind those it does not reach. */
  lemma ShiftedAdded(r: Relocs, mine: seq<Reloc>, start: nat, end: nat, delta: nat)
    requires r.current.Some? && r.current.value < |r.sections|
    requires forall x | x in CurrentRelocs(r) :: x.offset < start
    ensures ShiftedCurrent(Added(r, mine), start, end, delta) == Added(r, Shifted(mine, start, end, delta))
  {
    hide Shifted;
    var rs := CurrentRelocs(r);
    ShiftedJoin(rs, mine, start, end, delta);
    ShiftedSame(rs, start, end, delta);
    ShiftedSame(mine, start, end, delta);
  }

  /** Once the code section has relocations of its own, all later ones end up right. */
  lemma {:induction false} OwnBodies(o: Options, r: Relocs, name: string, count: nat, bs: seq<seq<Chunk>>, base: nat)
    requires r.current.Some? && r.current.value < |r.sections| && r.sections[r.current.value].sectionIndex == count
    requires forall x | x in CurrentRelocs(r) :: x.offset < base
    ensures BodySteps(o, r, name, count, bs, base) == Added(r, BodiesRelocs(o, bs, base))
    decreases |bs|
  {
    hide BodyStep, SizeLeb, Bytes, Added, RelocsAt;
    if bs == [] {
      AddedNone(r);
    } else {
      hide BodySteps, BodiesRelocs;
      FirstOfBodies(o, r, name, count, bs, base);
      var leb := SizeLeb(o, |Bytes(o, bs[0])|);
      var mine := RelocsAt(o, bs[0], base + |leb|);
      var next := base + |BodyBytes(o, bs[0])|;
      OwnBody(o, r, name, count, bs[0], base);
      RelocsWithin(o, bs[0], base + |leb|);
      AddedCurrent(r, mine);
      OwnBodies(o, Added(r, mine), name, count, bs[1..], next);
      AddedTwice(r, mine, BodiesRelocs(o, bs[1..], next));
    }
  }

  /** The first body with a relocation opens the code section's reloc section. */
  lemma FirstBody(o: Options, r: Relocs, name: string, count: nat, b: seq<Chunk>, base: nat)
    requires Bounded(r, count) && Recording(o, b)
    ensures BodyStep(o, r, name, count, b, base) ==
              Relocs(r.sections + [RelocSection(name, count, RelocsAt(o, b, base + |SizeLeb(o, |Bytes(o, b)|)|))],
                  Some(|r.sections|))
  {
    var q := Opened(r, name, count);
    hide Recording, SizeLeb, Bytes;
    assert q == Relocs(r.sections + [RelocSection(name, count, [])], Some(|r.sections|));
    assert CurrentRelocs(q) == [];
    OwnBody(o, q, name, count, b, base);
    assert Recorded(o, r, name, count, b, base + Space(o))
        == Recorded(o, q, name, count, b, base + Space(o)) by { assert Opened(q, name, count) == q; }
    var mine := RelocsAt(o, b, base + |SizeLeb(o, |Bytes(o, b)|)|);
    assert [] + mine == mine;
    assert q.sections[|r.sections| := RelocSection(name, count, mine)] == r.sections
        + [RelocSection(name, count, mine)];
  }

  /** The code section's relocations after all size fixups, when the condition holds: exactly
      those of the bodies where they finally stand; no other reloc section has changed. */
  lemma {:induction false} CodeRelocsSurvive(o: Options, r: Relocs, name: string, count: nat, bs: seq<seq<Chunk>>,
      base: nat)
    requires Bounded(r, count) && Quiet(o, CurrentRelocs(r), bs, base)
    ensures BodySteps(o, r, name, count, bs, base) ==
              if AnyRecording(o, bs) then Relocs(r.sections + [RelocSection(name, count, BodiesRelocs(o, bs, base))],
                  Some(|r.sections|)) else r
    decreases |bs|
  {
    hide BodyStep, BodySteps, BodiesRelocs, SizeLeb, Bytes, Recording, AnyRecording, Bounded, Quiet, CurrentRelocs;
    if bs == [] {
      NoBodies(o, r, name, count, base);
    } else {
      AnyFirst(o, bs);
      if Recording(o, bs[0]) {
        RecordedFirst(o, r, name, count, bs, base);
      } else {
        StaleFirst(o, r, name, count, bs, base);
        CodeRelocsSurvive(o, r, name, count, bs[1..], base + |BodyBytes(o, bs[0])|);
      }
    }
  }

  lemma NoBodies(o: Options, r: Relocs, name: string, count: nat, base: nat)
    ensures BodySteps(o, r, name, count, [], base) == r && !AnyRecording(o, [])
  {}

  /** A first body without relocations, whose fixup finds nothing to shift. */
  lemma StaleFirst(o: Options, r: Relocs, name: string, count: nat, bs: seq<seq<Chunk>>, base: nat)
    requires Bounded(r, count) && bs != [] && !Recording(o, bs[0]) && Quiet(o, CurrentRelocs(r), bs, base)
    ensures var next := base + |BodyBytes(o, bs[0])|;
            && Quiet(o, CurrentRelocs(r), bs[1..], next)
            && BodySteps(o, r, name, count, bs, base) == BodySteps(o, r, name, count, bs[1..], next)
            && BodiesRelocs(o, bs, base) == BodiesRelocs(o, bs[1..], next)
  {
    hide BodyStep, BodySteps, BodiesRelocs, SizeLeb, Bytes, Recording;
    var next := base + |BodyBytes(o, bs[0])|;
    StaleBody(o, r, name, count, bs[0], base);
    FirstOfBodies(o, r, name, count, bs, base);
    NoRelocs(o, bs[0], base + |SizeLeb(o, |Bytes(o, bs[0])|)|);
    assert [] + BodiesRelocs(o, bs[1..], next) == BodiesRelocs(o, bs[1..], next);
  }

  /** The first body opens the code section's reloc section, and the others add to it. */
  lemma RecordedFirst(o: Options, r: Relocs, name: string, count: nat, bs: seq<seq<Chunk>>, base: nat)
    requires Bounded(r, count) && bs != [] && Recording(o, bs[0])
    ensures BodySteps(o, r, name, count, bs, base)
        == Relocs(r.sections + [RelocSection(name, count, BodiesRelocs(o, bs, base))], Some(|r.sections|))
  {
    hide BodyStep, BodySteps, BodiesRelocs, SizeLeb, Bytes, Recording, Bounded, RelocsAt;
    var leb := SizeLeb(o, |Bytes(o, bs[0])|);
    var next := base + |BodyBytes(o, bs[0])|;
    FirstOfBodies(o, r, name, count, bs, base);
    var mine := RelocsAt(o, bs[0], base + |leb|);
    FirstBody(o, r, name, count, bs[0], base);
    RelocsWithin(o, bs[0], base + |leb|);
    MoreBodies(o, r.sections, name, count, mine, bs[1..], next);
  }

  lemma FirstOfBodies(o: Options, r: Relocs, name: string, count: nat, bs: seq<seq<Chunk>>, base: nat)
    requires bs != []
    ensures var next := base + |BodyBytes(o, bs[0])|;
            && BodySteps(o, r, name, count, bs, base)
                == BodySteps(o, BodyStep(o, r, name, count, bs[0], base), name, count, bs[1..], next)
            && BodiesRelocs(o, bs, base)
                == RelocsAt(o, bs[0], base + |SizeLeb(o, |Bytes(o, bs[0])|)|) + BodiesRelocs(o, bs[1..], next)
  {
    hide BodyStep, SizeLeb, Bytes, RelocsAt;
  }

  lemma MoreBodies(o: Options, rs: seq<RelocSection>, name: string, count: nat, mine: seq<Reloc>,
      bs: seq<seq<Chunk>>, base: nat)
    requires forall x | x in mine :: x.offset < base
    ensures BodySteps(o, Relocs(rs + [RelocSection(name, count, mine)], Some(|rs|)), name, count, bs, base)
        == Relocs(rs + [RelocSection(name, count, mine + BodiesRelocs(o, bs, base))], Some(|rs|))
  {
    hide BodySteps, BodiesRelocs, Added;
    var q := Relocs(rs + [RelocSection(name, count, mine)], Some(|rs|));
    assert q.sections[|rs|] == RelocSection(name, count, mine);
    OwnBodies(o, q, name, count, bs, base);
    AddedLast(rs, name, count, mine, BodiesRelocs(o, bs, base));
  }

  lemma AddedLast(rs: seq<RelocSection>, name: string, count: nat, mine: seq<Reloc>, more: seq<Reloc>)
    ensures Added(Relocs(rs + [RelocSection(name, count, mine)], Some(|rs|)), more)
        == Relocs(rs + [RelocSection(name, count, mine + more)], Some(|rs|))
  {
    var all := rs + [RelocSection(name, count, mine)];
    assert all[|rs| := RelocSection(name, count, mine + more)] == rs + [RelocSection(name, count, mine + more)];
  }

  lemma NoneRecording(o: Options)
    ensures !AnyRecording(o, [])
  {}

  lemma AnyFirst(o: Options, bs: seq<seq<Chunk>>)
    requires bs != []
    ensures AnyRecording(o, bs) <==> Recording(o, bs[0]) || AnyRecording(o, bs[1..])
  {
    hide Recording;
    if AnyRecording(o, bs[1..]) {
      var i :| 0 <= i < |bs[1..]| && Recording(o, bs[1..][i]);
      assert bs[i + 1] == bs[1..][i];
    }
    if AnyRecording(o, bs) && !Recording(o, bs[0]) {
      var i :| 0 <= i < |bs| && Recording(o, bs[i]);
      assert bs[1..][i - 1] == bs[i];
    }
  }

  /** A body without relocations leaves the reloc sections alone exactly when the shift finds
      nothing of the section before. */
  lemma StaleBody(o: Options, r: Relocs, name: string, count: nat, b: seq<Chunk>, base: nat)
    requires !Recording(o, b) && (r.current.Some? ==> r.current.value < |r.sections|)
    ensures BodyStep(o, r, name, count, b, base) == r
            <==> Delta(o, b) == 0 || forall x | x in CurrentRelocs(r) ::
                !(base <= x.offset <= base + Space(o) + |Bytes(o, b)|)
  {
    hide SizeLeb, Bytes, Recording, Shifted;
    var rs := CurrentRelocs(r);
    ShiftedSame(rs, base, base + Space(o) + |Bytes(o, b)|, Delta(o, b));
    if r.current.Some? { assert r.sections[r.current.value := r.sections[r.current.value]] == r.sections; }
  }

  // ----- when the condition fails -----

  /** The reloc sections of earlier sections come through the code section unchanged exactly
      when the condition holds. */
  lemma {:induction false} QuietExactly(o: Options, r: Relocs, name: string, count: nat, bs: seq<seq<Chunk>>, base: nat)
    requires Bounded(r, count)
    ensures Quiet(o, CurrentRelocs(r), bs, base) <==>
              (var r1 := BodySteps(o, r, name, count, bs, base);
                  |r.sections| <= |r1.sections| && r1.sections[..|r.sections|] == r.sections)
    decreases |bs|
  {
    if Quiet(o, CurrentRelocs(r), bs, base) {
      CodeRelocsSurvive(o, r, name, count, bs, base);
    } else {
      var c, j := NotQuiet(o, r, name, count, bs, base);
      var r1 := BodySteps(o, r, name, count, bs, base);
      assert r1.sections[..|r.sections|][c] == r1.sections[c];
    }
  }

  /** Earlier relocations move only upward, so one that has moved stays moved. */
  ghost predicate Moved(a: Relocs, b: Relocs) {
    && |a.sections| <= |b.sections|
    && forall i | 0 <= i < |a.sections| ::
         && |a.sections[i].relocations| <= |b.sections[i].relocations|
         && a.sections[i].sectionIndex == b.sections[i].sectionIndex
         && forall j | 0 <= j < |a.sections[i].relocations| ::
             a.sections[i].relocations[j].offset <= b.sections[i].relocations[j].offset
  }

  lemma {:induction false} ShiftedUp(rs: seq<Reloc>, start: nat, end: nat, delta: nat)
    ensures forall j | 0 <= j < |rs| :: rs[j].offset <= Shifted(rs, start, end, delta)[j].offset
  {
    if rs != [] {
      ShiftedUp(rs[1..], start, end, delta);
      forall j | 0 <= j < |rs| ensures rs[j].offset <= Shifted(rs, start, end, delta)[j].offset {
        if j > 0 { assert rs[j] == rs[1..][j - 1]; }
      }
    }
  }

  lemma BodyMoves(o: Options, r: Relocs, name: string, count: nat, b: seq<Chunk>, base: nat)
    requires r.current.Some? ==> r.current.value < |r.sections|
    ensures var r1 := BodyStep(o, r, name, count, b, base);
        Moved(r, r1) && (r1.current.Some? ==> r1.current.value < |r1.sections|)
  {
    hide Recording, SizeLeb, Bytes, RelocsAt, Shifted;
    var q := Recorded(o, r, name, count, b, base + Space(o));
    assert Moved(r, q);
    if q.current.Some? {
      ShiftedUp(q.sections[q.current.value].relocations, base, base + Space(o) + |Bytes(o, b)|, Delta(o, b));
    }
  }

  lemma {:induction false} BodiesMove(o: Options, r: Relocs, name: string, count: nat, bs: seq<seq<Chunk>>, base: nat)
    requires r.current.Some? ==> r.current.value < |r.sections|
    ensures Moved(r, BodySteps(o, r, name, count, bs, base))
    decreases |bs|
  {
    hide BodyStep;
    if bs != [] {
      BodyMoves(o, r, name, count, bs[0], base);
      BodiesMove(o, BodyStep(o, r, name, count, bs[0], base), name, count, bs[1..], base + |BodyBytes(o, bs[0])|);
    }
  }

  /** Without the condition some relocation of an earlier section is moved, for good. */
  lemma {:induction false} NotQuiet(o: Options, r: Relocs, name: string, count: nat, bs: seq<seq<Chunk>>, base: nat)
      returns (c: nat, j: nat)
    requires Bounded(r, count) && !Quiet(o, CurrentRelocs(r), bs, base)
    ensures var r1 := BodySteps(o, r, name, count, bs, base);
            && c < |r.sections| <= |r1.sections| && r1.sections[c].sectionIndex == r.sections[c].sectionIndex
            && j < |r.sections[c].relocations| <= |r1.sections[c].relocations|
            && r1.sections[c].relocations[j].offset > r.sections[c].relocations[j].offset
    decreases |bs|
  {
    hide BodyStep, Recording, SizeLeb, Bytes;
    StaleBody(o, r, name, count, bs[0], base);
    var r1 := BodyStep(o, r, name, count, bs[0], base);
    var next := base + |BodyBytes(o, bs[0])|;
    if r1 == r {
      c, j := NotQuiet(o, r, name, count, bs[1..], next);
    } else {
      StaleShape(o, r, name, count, bs[0], base);
      BodiesMove(o, r1, name, count, bs[1..], next);
      c := r.current.value;
      var rs := r.sections[c].relocations;
      var end := base + Space(o) + |Bytes(o, bs[0])|;
      j := InRange(rs, base, end);
      ShiftedAt(rs, base, end, Delta(o, bs[0]), j);
    }
  }

  lemma StaleShape(o: Options, r: Relocs, name: string, count: nat, b: seq<Chunk>, base: nat)
    requires !Recording(o, b) && Bounded(r, count) && BodyStep(o, r, name, count, b, base) != r
    ensures r.current.Some? && Delta(o, b) > 0
    ensures var (c, r1, end) := (r.current.value, BodyStep(o, r, name, count, b, base),
        base + Space(o) + |Bytes(o, b)|);
            && |r1.sections| == |r.sections| && r1.current == r.current
                && r1.sections[c].sectionIndex == r.sections[c].sectionIndex
            && r1.sections[c].relocations == Shifted(r.sections[c].relocations, base, end, Delta(o, b))
            && exists x :: x in r.sections[c].relocations && base <= x.offset <= end
  {
    hide Recording, SizeLeb, Bytes;
    StaleBody(o, r, name, count, b, base);
  }

  lemma InRange(rs: seq<Reloc>, start: nat, end: nat) returns (j: nat)
    requires exists x :: x in rs && start <= x.offset <= end
    ensures j < |rs| && start <= rs[j].offset <= end
  {
    var x :| x in rs && start <= x.offset <= end;
    j :| j < |rs| && rs[j] == x;
  }

  lemma {:induction false} ShiftedAt(rs: seq<Reloc>, start: nat, end: nat, delta: nat, j: nat)
    requires j < |rs| && start <= rs[j].offset <= end
    ensures Shifted(rs, start, end, delta)[j].offset == rs[j].offset + delta
  {
    if j > 0 { assert rs[1..][j - 1] == rs[j]; ShiftedAt(rs[1..], start, end, delta, j - 1); }
  }

  /** With no relocations before the code section the condition always holds. */
  lemma {:induction false} QuietAtStart(o: Options, bs: seq<seq<Chunk>>, base: nat)
    ensures Quiet(o, [], bs, base)
    decreases |bs|
  {
    if bs != [] { QuietAtStart(o, bs[1..], base + |BodyBytes(o, bs[0])|); }
  }
}

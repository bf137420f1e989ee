/** A growable byte buffer with a write position, as MemoryStream keeps it. */
module Streams {
  import opened Leb128

  function Zeros(n: nat): (s: seq<byte>)
    ensures |s| == n
  {
    seq(n, _ => 0)
  }

  function Resized(d: seq<byte>, n: nat): seq<byte> {
    if n <= |d| then d else d + Zeros(n - |d|)
  }

  function Overwritten(d: seq<byte>, at: nat, src: seq<byte>): (r: seq<byte>)
    ensures |r| == if src == [] || at + |src| <= |d| then |d| else at + |src|
  {
    if src == [] then d
    else var e := Resized(d, at + |src|); e[..at] + src + e[at + |src|..]
  }

  function Moved(d: seq<byte>, dst: nat, src: nat, size: nat): seq<byte> {
    if size == 0 then d
    else
      var e := Resized(d, if src > dst then src + size else dst + size);
      Overwritten(e, dst, e[src..src + size])
  }

  class Stream {
    var data: seq<byte>
    var offset: nat

    constructor ()
      ensures data == [] && offset == 0
    {
      data, offset := [], 0;
    }

    method WriteDataAt(at: nat, src: seq<byte>)
      modifies this`data
      ensures data == Overwritten(old(data), at, src)
    {
      if src != [] {
        var end := at + |src|;
        if end > |data| { data := Resized(data, end); }
        data := data[..at] + src + data[end..];
      }
    }

    method WriteData(src: seq<byte>)
      modifies this
      ensures data == Overwritten(old(data), old(offset), src) && offset == old(offset) + |src|
      ensures old(offset) == |old(data)| ==> data == old(data) + src && offset == |data|
    {
      WriteDataAt(offset, src);
      offset := offset + |src|;
    }

    /** Overlapping ranges behave as if copied through a temporary. */
    method MoveData(dst: nat, src: nat, size: nat)
      modifies this`data
      ensures data == Moved(old(data), dst, src, size)
    {
      if size != 0 {
        var end := if src > dst then src + size else dst + size;
        data := Resized(data, end);
        data := data[..dst] + data[src..src + size] + data[dst + size..];
      }
    }

    method Truncate(size: nat)
      requires size <= |data|
      modifies this
      ensures data == old(data)[..size] && offset == if old(offset) > size then size else old(offset)
    {
      data := data[..size];
      if offset > size { offset := size; }
    }

    method AddOffset(delta: int)
      requires offset + delta >= 0
      modifies this`offset
      ensures offset == old(offset) + delta
    {
      offset := offset + delta;
    }
  }

  // ----- byte by byte -----

  /** A write puts its bytes at their place, leaves the others, and fills a gap with zeros. */
  lemma OverwrittenAt(d: seq<byte>, at: nat, src: seq<byte>, j: nat)
    requires j < |Overwritten(d, at, src)|
    ensures Overwritten(d, at, src)[j] ==
              if at <= j < at + |src| then src[j - at] else if j < |d| then d[j] else 0
  {
    if src != [] { var e := Resized(d, at + |src|); }
  }

  /** A move copies a range as it was before, zeros where there was nothing. */
  lemma MovedAt(d: seq<byte>, dst: nat, src: nat, size: nat, j: nat)
    requires j < |Moved(d, dst, src, size)|
    ensures Moved(d, dst, src, size)[j] ==
              var from := if dst <= j < dst + size then src + (j - dst) else j;
              if from < |d| then d[from] else 0
  {
    if size != 0 {
      var e := Resized(d, if src > dst then src + size else dst + size);
      OverwrittenAt(e, dst, e[src..src + size], j);
    }
  }

  // ----- what the three edits the binary writer makes amount to -----

  /** Make room for a longer length field in front of a payload, and fill it in. */
  lemma FixupEdit(d: seq<byte>, offset: nat, space: nat, leb: seq<byte>)
    requires offset + space <= |d| && space <= |leb| && leb != []
    ensures var size := |d| - offset - space;
            var moved := if |leb| == space then d else Moved(d, offset + |leb|, offset + space, size);
            && Overwritten(moved, offset, leb) == d[..offset] + leb + d[offset + space..]
  {
    var size := |d| - offset - space;
    var want := d[..offset] + leb + d[offset + space..];
    if |leb| != space && size != 0 {
      var e := Resized(d, offset + |leb| + size);
      assert e[offset + space..offset + space + size] == d[offset + space..];
      var moved := Moved(d, offset + |leb|, offset + space, size);
      assert moved == e[..offset + |leb|] + d[offset + space..];
      assert moved[..offset] == d[..offset] && moved[offset + |leb|..] == d[offset + space..];
    } else if |leb| != space {
      var e := Resized(d, offset + |leb|);
      assert e[offset + |leb|..] == [] && e[..offset] == d[..offset];
    }
  }

  /** Remove the bytes from `start` to `end`. */
  lemma RemoveEdit(d: seq<byte>, start: nat, end: nat)
    requires start <= end <= |d|
    ensures var size := |d| - end;
            && start + size <= |Moved(d, start, end, size)|
            && Moved(d, start, end, size)[..start + size] == d[..start] + d[end..]
  {
    var size := |d| - end;
    if size != 0 {
      assert Resized(d, if end > start then end + size else start + size) == d;
      assert d[end..end + size] == d[end..];
    }
  }

  /** Insert bytes at `at`. */
  lemma InsertEdit(d: seq<byte>, at: nat, src: seq<byte>)
    requires at <= |d|
    ensures Overwritten(Moved(d, at + |src|, at, |d| - at), at, src) == d[..at] + src + d[at..]
  {
    if src == [] {
      if |d| > at {
        assert Resized(d, at + (|d| - at)) == d;
        assert d[at..at + (|d| - at)] == d[at..];
        assert Moved(d, at, at, |d| - at) == d;
      }
      assert d[..at] + src + d[at..] == d;
    } else {
      FixupEdit(d, at, 0, src);
    }
  }
}

/** Writing an instruction tree: a loop over each list, an opcode and immediates for each
    expression. The bytes and relocations are exactly those of EmitList. */
module TreeWriter {
  import opened Ir
  import opened Leb128
  import opened BinaryWriter
  import opened Opcodes
  import opened Immediates
  import opened TreeCodec

  /** What writing `cs` from the state `r` with `d` written leaves behind. */
  ghost predicate Wrote(w: Writer, d: seq<byte>, r: Relocs, cs: seq<Chunk>)
    reads w, w.stream
  {
    && w.Valid() && w.lastSectionPayloadOffset <= |d| && (r.current.Some? ==> r.current.value < |r.sections|)
    && w.stream.data == d + Bytes(w.options, cs)
    && w.State() == Recorded(w.options, r, w.lastSectionName, w.sectionCount, cs, |d| - w.lastSectionPayloadOffset)
  }

  /** One more piece after what has been written. */
  method WriteMore(w: Writer, cs: seq<Chunk>, ghost d: seq<byte>, ghost r: Relocs, ghost before: seq<Chunk>)
    requires Wrote(w, d, r, before)
    modifies w`relocSections, w`currentRelocSection, w.stream
    ensures Wrote(w, d, r, before + cs)
  {
    hide Recorded, Bytes;
    BytesJoin(w.options, before, cs);
    RecordedJoin(w.options, r, w.lastSectionName, w.sectionCount, before, cs, |d| - w.lastSectionPayloadOffset);
    w.WriteChunks(cs);
  }

  lemma Joined(a: seq<Chunk>, b: seq<Chunk>, c: seq<Chunk>)
    ensures a + b + c == a + (b + c)
  {}

  method WriteExprList(w: Writer, types: seq<FuncType>, es: seq<Expr>, ghost d: seq<byte>, ghost r: Relocs,
      ghost before: seq<Chunk>)
    requires Wrote(w, d, r, before)
    modifies w`relocSections, w`currentRelocSection, w.stream
    ensures Wrote(w, d, r, before + EmitList(types, es))
    decreases es, 0
  {
    hide EmitExpr, Wrote, EmitInstr, EmitCatches, EmitDecl, EmitVar, EmitTag;
    var i := 0;
    assert es[0..] == es;
    ghost var done: seq<Chunk> := [];
    assert before + done == before && done + EmitList(types, es) == EmitList(types, es);
    while i < |es|
      invariant 0 <= i <= |es| && Wrote(w, d, r, before + done)
      invariant done + EmitList(types, es[i..]) == EmitList(types, es)
    {
      WriteExpr(w, types, es[i], d, r, before + done);
      assert es[i..][1..] == es[i + 1..];
      Joined(before, done, EmitExpr(types, es[i]));
      Joined(done, EmitExpr(types, es[i]), EmitList(types, es[i + 1..]));
      done := done + EmitExpr(types, es[i]);
      i := i + 1;
    }
    assert done + [] == done;
  }

  method WriteExpr(w: Writer, types: seq<FuncType>, e: Expr, ghost d: seq<byte>, ghost r: Relocs,
      ghost before: seq<Chunk>)
    requires Wrote(w, d, r, before)
    modifies w`relocSections, w`currentRelocSection, w.stream
    ensures Wrote(w, d, r, before + EmitExpr(types, e))
    decreases e, 2
  {
    hide Wrote, EmitList, EmitCatches, EmitInstr, EmitDecl, EmitVar, EmitTag;
    match e {
      case Block(_, decl, b) => WriteBlock(w, types, BlockOp, decl, b, [Opcode1(EndOp)], d, r, before);
      case Loop(_, decl, b) => WriteBlock(w, types, LoopOp, decl, b, [Opcode1(EndOp)], d, r, before);
      case If(_, decl, a, b) =>
        if b == [] {
          WriteBlock(w, types, IfOp, decl, a, [Opcode1(EndOp)], d, r, before);
          assert [Opcode1(IfOp), EmitDecl(types, decl)] + EmitList(types, a) + []
              == [Opcode1(IfOp), EmitDecl(types, decl)] + EmitList(types, a);
        } else {
          WriteBlock(w, types, IfOp, decl, a, [Opcode1(ElseOp)], d, r, before);
          ghost var head := [Opcode1(IfOp), EmitDecl(types, decl)] + EmitList(types, a);
          WriteExprList(w, types, b, d, r, before + (head + [Opcode1(ElseOp)]));
          WriteMore(w, [Opcode1(EndOp)], d, r, before + (head + [Opcode1(ElseOp)]) + EmitList(types, b));
          assert before + (head + [Opcode1(ElseOp)]) + EmitList(types, b) + [Opcode1(EndOp)] == before
              + EmitExpr(types, e);
        }
      case Try(_, decl, b, kind, cs, v) =>
        match kind {
          case PlainTry => WriteBlock(w, types, TryOp, decl, b, [Opcode1(EndOp)], d, r, before);
          case DelegateTry => WriteBlock(w, types, TryOp, decl, b, [Opcode1(DelegateOp), EmitVar(v)], d, r, before);
          case CatchTry =>
            WriteBlock(w, types, TryOp, decl, b, [], d, r, before);
            ghost var head := [Opcode1(TryOp), EmitDecl(types, decl)] + EmitList(types, b);
            assert head + [] == head;
            WriteCatches(w, types, cs, d, r, before + head);
            WriteMore(w, [Opcode1(EndOp)], d, r, before + head + EmitCatches(types, cs));
            assert before + head + EmitCatches(types, cs) + [Opcode1(EndOp)] == before + EmitExpr(types, e);
        }
      case Plain(i) => WriteMore(w, EmitInstr(i), d, r, before);
      case Br(v) => WriteMore(w, [Opcode1(BrOp), EmitVar(v)], d, r, before);
      case BrIf(v) => WriteMore(w, [Opcode1(BrIfOp), EmitVar(v)], d, r, before);
      case BrTable(vs, v) => WriteMore(w, [Opcode1(BrTableOp), Raw(EncodeU(|vs|))] + EmitVars(vs) + [EmitVar(v)], d,
          r, before);
      case Return => WriteMore(w, [Opcode1(ReturnOp)], d, r, before);
      case Unreachable => WriteMore(w, [Opcode1(UnreachableOp)], d, r, before);
      case Throw(t) => WriteMore(w, [Opcode1(ThrowOp), Raw(EncodeU(t))], d, r, before);
      case Rethrow(v) => WriteMore(w, [Opcode1(RethrowOp), EmitVar(v)], d, r, before);
    }
  }

  /** An opcode, a signature, a body and what closes it. */
  method WriteBlock(w: Writer, types: seq<FuncType>, op: Opcode, decl: BlockDecl, body: seq<Expr>, close: seq<Chunk>,
      ghost d: seq<byte>, ghost r: Relocs, ghost before: seq<Chunk>)
    requires Wrote(w, d, r, before)
    modifies w`relocSections, w`currentRelocSection, w.stream
    ensures Wrote(w, d, r, before + ([Opcode1(op), EmitDecl(types, decl)] + EmitList(types, body) + close))
    decreases body, 1
  {
    hide Wrote, EmitList, EmitDecl;
    ghost var head := [Opcode1(op), EmitDecl(types, decl)];
    WriteMore(w, [Opcode1(op), EmitDecl(types, decl)], d, r, before);
    WriteExprList(w, types, body, d, r, before + head);
    WriteMore(w, close, d, r, before + head + EmitList(types, body));
    assert before + head + EmitList(types, body) + close == before + (head + EmitList(types, body) + close);
  }

  method WriteCatches(w: Writer, types: seq<FuncType>, cs: seq<Catch>, ghost d: seq<byte>, ghost r: Relocs,
      ghost before: seq<Chunk>)
    requires Wrote(w, d, r, before)
    modifies w`relocSections, w`currentRelocSection, w.stream
    ensures Wrote(w, d, r, before + EmitCatches(types, cs))
    decreases cs, 0
  {
    hide Wrote, EmitList, EmitTag;
    var i := 0;
    ghost var done: seq<Chunk> := [];
    assert before + done == before && cs[0..] == cs;
    while i < |cs|
      invariant 0 <= i <= |cs| && Wrote(w, d, r, before + done)
      invariant done + EmitCatches(types, cs[i..]) == EmitCatches(types, cs)
    {
      WriteMore(w, EmitTag(cs[i].tag), d, r, before + done);
      WriteExprList(w, types, cs[i].exprs, d, r, before + done + EmitTag(cs[i].tag));
      assert cs[i..][1..] == cs[i + 1..];
      ghost var one := EmitTag(cs[i].tag) + EmitList(types, cs[i].exprs);
      assert before + done + EmitTag(cs[i].tag) + EmitList(types, cs[i].exprs) == before + (done + one);
      assert done + (one + EmitCatches(types, cs[i + 1..])) == done + one + EmitCatches(types, cs[i + 1..]);
      done := done + one;
      i := i + 1;
    }
    assert done + [] == done;
  }
}

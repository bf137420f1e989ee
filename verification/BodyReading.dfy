/** The reader of function bodies accepts exactly the grammar, and builds the tree it means. */
module BodyReading {
  import opened Ir
  import opened Numbers
  import opened Leb128
  import BinaryWriter
  import opened Opcodes
  import opened Immediates
  import opened TreeCodec
  import opened TreeRoundTrip
  import opened TreeLockStep
  import opened BodyGrammar

  // ----- immediates -----

  lemma UnsignedReads(p: seq<byte>, i: nat)
    ensures ReadIndex(p, i) == Unsigned(p, i)
    ensures Unsigned(p, i).Some? ==> i < Unsigned(p, i).value.1 <= |p|
  {
    hide ReadU32, GrammarU;
    ReadU32IsGrammar(p, i);
    ReadU32Forward(p, i);
  }

  lemma {:induction false} SignedRange(n: nat, p: seq<byte>, i: nat)
    requires n > 0 && GrammarS(n, p, i).Some?
    ensures -Pow2(n - 1) <= GrammarS(n, p, i).value.value < Pow2(n - 1)
    decreases n
  {
    if p[i] >= 128 {
      Pow2Seven(n - 8);
      SignedRange(n - 7, p, i + 1);
    }
  }

  /** A signed number below 2^31 and its 32-bit pattern. */
  lemma PatternBack(v: int)
    requires -TWO_TO_31 <= v < TWO_TO_31
    ensures 0 <= v % TWO_TO_32 && Twos(TWO_TO_31, v % TWO_TO_32) == v
  {}

  /** On all bytes: a block signature is read exactly where the grammar has one. */
  lemma BlockTypeReads(types: seq<FuncType>, p: seq<byte>, i: nat)
    ensures ReadBlockType(types, p, i) == BlockSig(types, p, i)
    ensures BlockSig(types, p, i).Some? ==> i < BlockSig(types, p, i).value.1 <= |p|
  {
    hide ReadS32, GrammarS;
    ReadS32IsGrammar(p, i);
    ReadSForward(p, i);
    OneByteSigned(p, i);
    if GrammarS(32, p, i).Some? {
      SignedRange(32, p, i);
      Pow2Values();
      PatternBack(GrammarS(32, p, i).value.value);
    }
  }

  lemma OneByteSigned(p: seq<byte>, i: nat)
    ensures i >= |p| ==> GrammarS(32, p, i) == None
    ensures i < |p| && 64 <= p[i] < 128 ==> GrammarS(32, p, i) == Some(Parsed((p[i] as int) - 128, i + 1))
  {
    Pow2Values();
  }

  lemma {:induction false} LabelsRead(p: seq<byte>, i: nat, n: nat)
    ensures ReadIndices(p, i, n) == Labels(p, i, n)
    decreases n
  {
    hide ReadIndex, Unsigned;
    if n > 0 {
      UnsignedReads(p, i);
      if Unsigned(p, i).Some? { LabelsRead(p, Unsigned(p, i).value.1, n - 1); }
    }
  }

  lemma TableReads(p: seq<byte>, i: nat)
    ensures ReadBrTable(p, i) == Table(p, i)
  {
    hide ReadIndex, Unsigned, ReadIndices, Labels;
    UnsignedReads(p, i);
    if Unsigned(p, i).Some? {
      var n := Unsigned(p, i).value;
      LabelsRead(p, n.1, n.0);
      if Labels(p, n.1, n.0).Some? { UnsignedReads(p, Labels(p, n.1, n.0).value.1); }
    }
  }

  lemma MemoryReads(g: Reader, p: seq<byte>, i: nat)
    ensures var m := ReadMemLocation(g.features, p, i);
            Memory(g, p, i) ==
              if m.None? then None else Some(Memarg(m.value.align, m.value.memidx, m.value.offset, m.value.next))
  {
    hide ReadU32, ReadU64, GrammarU, Pow2;
    ReadU32IsGrammar(p, i);
    ReadU32Forward(p, i);
    if ReadU32(p, i).Some? {
      var a := ReadU32(p, i).value;
      ReadU32IsGrammar(p, a.next);
      ReadU32Forward(p, a.next);
      ReadU64IsGrammar(p, a.next);
      if ReadU32(p, a.next).Some? {
        var k := ReadU32(p, a.next).value.next;
        ReadU32IsGrammar(p, k);
        ReadU64IsGrammar(p, k);
      }
    }
  }

  lemma {:induction false} LittleEndianReads(p: seq<byte>, i: nat)
    ensures ReadLe(p, i, 4) == if i + 4 <= |p| then Some(Parsed(Float32(p, i), i + 4)) else None
    ensures ReadLe(p, i, 8) == if i + 8 <= |p| then Some(Parsed(Float64(p, i), i + 8)) else None
  {
    hide ReadLe;
    FourBytes(p, i, 0);
    FourBytes(p, i, 4);
    FourBytes(p, i + 4, 0);
    NothingMore(p, i + 4);
    NothingMore(p, i + 8);
  }

  lemma NothingMore(p: seq<byte>, i: nat)
    ensures ReadLe(p, i, 0) == Some(Parsed(0, i))
  {}

  /** Four bytes and `n` more. */
  lemma FourBytes(p: seq<byte>, i: nat, n: nat)
    ensures ReadLe(p, i, n + 4) ==
              if i + 4 > |p| then None
              else
                var r := ReadLe(p, i + 4, n);
                if r.None? then None else Some(Parsed(Float32(p, i) + 0x1_0000_0000 * r.value.value, r.value.next))
  {
    if i + 4 <= |p| {
      OneMore(p, i, n + 3);
      OneMore(p, i + 1, n + 2);
      OneMore(p, i + 2, n + 1);
      OneMore(p, i + 3, n);
    } else {
      TooShort(p, i, n + 4);
    }
  }

  lemma OneMore(p: seq<byte>, i: nat, n: nat)
    requires i < |p|
    ensures ReadLe(p, i, n + 1) == var r := ReadLe(p, i + 1, n); if r.None? then None
        else Some(Parsed((p[i] as int) + 256 * r.value.value, r.value.next))
  {}

  lemma {:induction false} TooShort(p: seq<byte>, i: nat, n: nat)
    requires n > 0 && i + n > |p|
    ensures ReadLe(p, i, n) == None
    decreases n
  {
    if n > 1 && i < |p| { TooShort(p, i + 1, n - 1); }
  }

  lemma ConstantReads(p: seq<byte>, i: nat, ty: Type)
    ensures ReadConst(ty, p, i) ==
              Constant(match ty case I32 => 0x41 case I64 => 0x42 case F32 => 0x43 case F64 => 0x44, p, i)
  {
    hide ReadS32, ReadS64, GrammarS, ReadLe;
    ReadS32IsGrammar(p, i);
    ReadS64IsGrammar(p, i);
    LittleEndianReads(p, i);
  }

  // ----- opcodes -----

  /** The instruction that the reader's tables give for an opcode. */
  function Decoded(g: Reader, op: Opcode, p: seq<byte>, i: nat): Option<(Expr, nat)> {
    match op
    case UnreachableOp => Some((Unreachable, i))
    case ReturnOp => Some((Return, i))
    case BrTableOp => ReadBrTable(p, i)
    case BrOp => var x :- ReadIndex(p, i); Some((Br(Index(x.0)), x.1))
    case BrIfOp => var x :- ReadIndex(p, i); Some((BrIf(Index(x.0)), x.1))
    case ThrowOp => var x :- ReadIndex(p, i); Some((Throw(x.0), x.1))
    case RethrowOp => var x :- ReadIndex(p, i); Some((Rethrow(Index(x.0)), x.1))
    case _ => var x :- ReadInstr(g.features, op, p, i); Some((Plain(x.0), x.1))
  }

  predicate Structural(op: Opcode) {
    op.BlockOp? || op.LoopOp? || op.IfOp? || op.TryOp? || op.ElseOp? || op.CatchOp? || op.CatchAllOp? || op.EndOp?
    || op.DelegateOp?
  }

  lemma CodesOfStructure(b: byte)
    ensures IsBlock(b) || IsEnding(b) <==> FromCode(b).Some? && Structural(FromCode(b).value)
    ensures b == 0x02 <==> FromCode(b) == Some(BlockOp)
    ensures b == 0x03 <==> FromCode(b) == Some(LoopOp)
    ensures b == 0x04 <==> FromCode(b) == Some(IfOp)
    ensures b == 0x06 <==> FromCode(b) == Some(TryOp)
    ensures b == 0x05 <==> FromCode(b) == Some(ElseOp)
    ensures b == 0x07 <==> FromCode(b) == Some(CatchOp)
    ensures b == 0x0b <==> FromCode(b) == Some(EndOp)
    ensures b == 0x18 <==> FromCode(b) == Some(DelegateOp)
    ensures b == 0x19 <==> FromCode(b) == Some(CatchAllOp)
  {}

  lemma SimpleCodes(b: byte)
    ensures Simple(b) == if FromCode(b).Some? && FromCode(b).value.SimpleOp? then Some(FromCode(b).value.i) else None
  {}

  lemma AccessCodes(b: byte)
    ensures LoadShape(b) == if FromCode(b).Some? && FromCode(b).value.LoadOp? then Some(FromCode(b).value.acc) else None
    ensures StoreShape(b) ==
              if FromCode(b).Some? && FromCode(b).value.StoreOp? then Some(FromCode(b).value.acc) else None
  {}

  lemma IndexCodes(b: byte, x: nat)
    ensures WithIndex(b, x) ==
              match FromCode(b)
              case Some(ThrowOp) => Some(Throw(x))
              case Some(RethrowOp) => Some(Rethrow(Index(x)))
              case Some(BrOp) => Some(Br(Index(x)))
              case Some(BrIfOp) => Some(BrIf(Index(x)))
              case Some(IndexOp(form)) => Some(Plain(IndexInstr(form, x)))
              case _ => None
  {}

  lemma OtherCodes(b: byte)
    ensures b == 0x00 <==> FromCode(b) == Some(UnreachableOp)
    ensures b == 0x0f <==> FromCode(b) == Some(ReturnOp)
    ensures b == 0x0e <==> FromCode(b) == Some(BrTableOp)
    ensures b == 0x41 <==> FromCode(b) == Some(ConstOp(I32))
    ensures b == 0x42 <==> FromCode(b) == Some(ConstOp(I64))
    ensures b == 0x43 <==> FromCode(b) == Some(ConstOp(F32))
    ensures b == 0x44 <==> FromCode(b) == Some(ConstOp(F64))
  {}

  /** Opcode by opcode, the tables say what the grammar says. */
  lemma InstructionDecodes(g: Reader, p: seq<byte>, i: nat)
    requires i < |p| && !IsBlock(p[i]) && !IsEnding(p[i])
    ensures Instruction(g, p, i) ==
              match FromCode(p[i])
              case Some(op) => Decoded(g, op, p, i + 1)
              case None => var x := g.others(p, i); if x.None? then None else Some((Plain(x.value.0), x.value.1))
  {
    hide FromCode, Simple, LoadShape, StoreShape, WithIndex, ReadIndex, Unsigned, ReadBrTable, Table,
        ReadMemLocation, Memory, ReadConst, Constant, ReadU32;
    var b := p[i];
    CodesOfStructure(b);
    SimpleCodes(b);
    AccessCodes(b);
    IndexCodes(b, 0);
    OtherCodes(b);
    UnsignedReads(p, i + 1);
    ReadU32Forward(p, i + 1);
    TableReads(p, i + 1);
    MemoryReads(g, p, i + 1);
    if Unsigned(p, i + 1).Some? { IndexCodes(b, Unsigned(p, i + 1).value.0); }
    match FromCode(b) {
      case Some(ConstOp(ty)) => ConstantReads(p, i + 1, ty);
      case _ =>
    }
    IndexForm(p, i + 1);
  }

  lemma IndexForm(p: seq<byte>, i: nat)
    ensures ReadIndex(p, i) == var r := ReadU32(p, i); if r.None? || r.value.value < 0 then None
        else Some((r.value.value, r.value.next))
  {
    hide ReadU32;
  }

  // ----- single turns of the loop -----

  /** There is a list to append to. */
  predicate Ready(st: State) { st.labels != [] && Get(st.root, PathOf(st.labels)).Some? }

  /** A turn that fails ends the run. */
  lemma RunFails(r: Reader, p: seq<byte>, end: nat, st: State)
    requires st.offset < |p| ==>
               match FromCode(p[st.offset])
               case Some(op) => StepOp(r, p, st.(offset := st.offset + 1), op).Fail?
               case None => r.others(p, st.offset).None?
    ensures Run(r, p, end, st).Fail?
  {
    hide FromCode, StepOp;
  }

  lemma AppendIs(st: State, next: nat, e: Expr)
    requires Ready(st)
    ensures AppendExpr(st.(offset := next), e) == Ok(WithCurrent(st, next, Current(st) + [e]))
  {
    hide Get, Put, PathOf;
  }

  /** What the reader does with an opcode that stands for an instruction. */
  lemma DecodedStep(r: Reader, p: seq<byte>, st: State, op: Opcode)
    requires !Structural(op)
    ensures StepOp(r, p, st, op) ==
              match Decoded(r, op, p, st.offset)
              case None => Fail(Malformed)
              case Some(x) => AppendExpr(st.(offset := x.1), x.0)
  {
    hide AppendExpr, ReadIndex, ReadBrTable, ReadInstr;
  }

  /** An instruction that contains no others is appended, or the run fails. */
  lemma RunInstruction(r: Reader, p: seq<byte>, end: nat, st: State)
    requires Ready(st) && st.offset < end <= |p| && !IsBlock(p[st.offset]) && !IsEnding(p[st.offset])
    ensures match Instruction(r, p, st.offset)
            case None => Run(r, p, end, st).Fail?
            case Some(x) =>
              if st.offset < x.1 <= |p| then
                Run(r, p, end, st) == Run(r, p, end, WithCurrent(st, x.1, Current(st) + [x.0]))
              else Run(r, p, end, st).Fail?
  {
    hide FromCode, StepOp, Instruction, Decoded, AppendExpr, Get, Put, PathOf, Run;
    var i := st.offset;
    InstructionDecodes(r, p, i);
    CodesOfStructure(p[i]);
    match FromCode(p[i])
    case None =>
      if r.others(p, i).Some? { AppendIs(st, r.others(p, i).value.1, Plain(r.others(p, i).value.0)); }
      OtherTurn(r, p, end, st);
    case Some(op) =>
      var st1 := st.(offset := i + 1);
      DecodedStep(r, p, st1, op);
      match Decoded(r, op, p, i + 1) {
        case None => RunFails(r, p, end, st);
        case Some(x) =>
          AppendIs(st, x.1, x.0);
          assert st1.(offset := x.1) == st.(offset := x.1);
          OpTurn(r, p, end, st, op, WithCurrent(st, x.1, Current(st) + [x.0]));
      }
  }

  lemma OpTurn(r: Reader, p: seq<byte>, end: nat, st: State, op: Opcode, st1: State)
    requires st.offset < end <= |p| && FromCode(p[st.offset]) == Some(op)
    requires StepOp(r, p, st.(offset := st.offset + 1), op) == Ok(st1)
    ensures if st.offset < st1.offset <= |p| then Run(r, p, end, st) == Run(r, p, end, st1)
        else Run(r, p, end, st).Fail?
  {
    hide FromCode, StepOp;
  }

  lemma OtherTurn(r: Reader, p: seq<byte>, end: nat, st: State)
    requires Ready(st) && st.offset < end <= |p| && FromCode(p[st.offset]) == None
    ensures var x := r.others(p, st.offset);
            if x.Some? && st.offset < x.value.1 <= |p| then
              Run(r, p, end, st) == Run(r, p, end, WithCurrent(st, x.value.1, Current(st) + [Plain(x.value.0)]))
            else Run(r, p, end, st).Fail?
  {
    hide FromCode, AppendExpr, Get, Put, PathOf;
    var x := r.others(p, st.offset);
    if x.Some? { AppendIs(st, x.value.1, Plain(x.value.0)); }
  }

  // ----- endings -----

  /** An ending whose immediate is malformed ends the run wherever it stands. */
  lemma BadEnding(r: Reader, p: seq<byte>, end: nat, st: State)
    requires st.offset < end <= |p| && IsEnding(p[st.offset]) && EndingAt(p, st.offset).None?
    ensures Run(r, p, end, st).Fail?
  {
    hide FromCode, ReadIndex, Unsigned, StepEnd, OnElse, OnCatch, OnDelegate, Run;
    CodesOfStructure(p[st.offset]);
    UnsignedReads(p, st.offset + 1);
    RunFails(r, p, end, st);
  }

  lemma EndingForward(p: seq<byte>, i: nat)
    requires i < |p|
    ensures EndingAt(p, i).Some? ==> i < EndingAt(p, i).value.1 <= |p|
  {
    hide Unsigned;
    UnsignedReads(p, i + 1);
  }

  /** The block of an opcode cannot be ended like that. */
  predicate Misplaced(op: Opcode, top: Label, e: Expr, x: Ending) {
    match x
    case End => false
    case Else => op != IfOp || top.kind != IfLabel
    case CatchOf(tag) =>
      top.kind != TryLabel || (e.Try? && tag == None && e.catches != [] && Last(e.catches).tag == None)
    case DelegateTo(_) => op != TryOp || (top.kind == TryLabel && e.Try? && e.kind == CatchTry)
  }

  /** Inside a block a misplaced ending ends the run. */
  lemma MisplacedFails(r: Reader, p: seq<byte>, end: nat, st: State, offset: nat, op: Opcode, top: Label, e: Expr)
    requires Ready(st) && ListOf(e, top.slot).Some?
    requires offset < end <= |p| && IsEnding(p[offset]) && EndingAt(p, offset).Some?
    requires Misplaced(op, top, e, EndingAt(p, offset).value.0)
    ensures Run(r, p, end, Building(st, offset, op, top, e)).Fail?
  {
    hide FromCode, ReadIndex, Unsigned, Get, Put, PathOf, Run, StepEnd;
    var b := Building(st, offset, op, top, e);
    var next := EndingAt(p, offset).value.1;
    CodesOfStructure(p[offset]);
    UnsignedReads(p, offset + 1);
    BuildingList(st, next, op, top, e);
    BuildingList(st, offset + 1, op, top, e);
    assert b.nested[..|b.nested| - 1] == st.nested;
    UnnestedParent(st, next, op, top, e);
    RunFails(r, p, end, b);
  }

  /** The parent of an open block does not depend on the block stack. */
  lemma UnnestedParent(st: State, offset: nat, op: Opcode, top: Label, e: Expr)
    ensures var b := Building(st, offset, op, top, e);
            ParentList(b.(nested := st.nested)) == ParentList(b)
                && TopLabelExpr(b.(nested := st.nested)) == TopLabelExpr(b)
  {
    hide Get, Put, PathOf;
  }

  /** In the function's own label only the end is in its place. */
  lemma OutermostFails(r: Reader, p: seq<byte>, end: nat, st: State)
    requires st.nested == [] && st.labels == [Label(FuncLabel, BodySlot)]
    requires st.offset < end <= |p| && IsEnding(p[st.offset]) && EndingAt(p, st.offset).Some?
    requires EndingAt(p, st.offset).value.0 != End
    ensures Run(r, p, end, st).Fail?
  {
    hide FromCode, ReadIndex, Unsigned, Run;
    CodesOfStructure(p[st.offset]);
    UnsignedReads(p, st.offset + 1);
    RunFails(r, p, end, st);
  }

  // ----- sequences -----

  /** From any point where there is a list to append to: the run goes on to the ending of the
      sequence that the grammar finds there, with its instructions appended, or it fails. */
  lemma {:induction false} RunSequence(r: Reader, p: seq<byte>, end: nat, st: State)
    requires Ready(st) && end <= |p|
    ensures match Sequence(r, p, end, st.offset, |st.labels|)
            case None => Run(r, p, end, st).Fail?
            case Some(x) =>
              && st.offset <= x.at < end && IsEnding(p[x.at]) && EndingAt(p, x.at) == Some((x.ending, x.next))
              && x.at < x.next <= |p|
              && Run(r, p, end, st) == Run(r, p, end, WithCurrent(st, x.at, Current(st) + x.es))
    decreases if st.offset <= |p| then |p| - st.offset else 0, 1
  {
    hide Get, Put, PathOf, EndingAt, One, FromCode, Step, Sequence;
    var i := st.offset;
    SequenceIs(r, p, end, i, |st.labels|);
    if i >= end {
    } else if IsEnding(p[i]) {
      EndingForward(p, i);
      hide Run;
      if EndingAt(p, i).None? {
        BadEnding(r, p, end, st);
      } else {
        PutSame(st.root, PathOf(st.labels));
        assert Current(st) + [] == Current(st);
      }
    } else {
      hide Run;
      RunOne(r, p, end, st);
      match One(r, p, end, i, |st.labels|)
      case None =>
      case Some(x) =>
        if i < x.1 <= |p| {
          var st1 := WithCurrent(st, x.1, Current(st) + [x.0]);
          CurrentWith(st, x.1, Current(st) + [x.0]);
          RunSequence(r, p, end, st1);
          match Sequence(r, p, end, x.1, |st.labels|) {
            case None =>
            case Some(rest) => assert Current(st) + [x.0] + rest.es == Current(st) + ([x.0] + rest.es);
          }
        }
    }
  }

  lemma SequenceIs(g: Reader, p: seq<byte>, end: nat, i: nat, open: nat)
    requires end <= |p|
    ensures i >= end ==> Sequence(g, p, end, i, open).None?
    ensures i < end && IsEnding(p[i]) ==> Sequence(g, p, end, i, open) == var x := EndingAt(p, i);
        if x.None? then None else Some(Item([], x.value.0, i, x.value.1))
    ensures i < end && !IsEnding(p[i]) ==> Sequence(g, p, end, i, open) == var x := One(g, p, end, i, open);
        if x.None? || !(i < x.value.1 <= |p|) then None
        else var rest := Sequence(g, p, end, x.value.1, open);
          if rest.None? then None else Some(rest.value.(es := [x.value.0] + rest.value.es))
  {
    hide EndingAt, One;
  }

  lemma {:induction false} RunOne(r: Reader, p: seq<byte>, end: nat, st: State)
    requires Ready(st) && st.offset < end <= |p| && !IsEnding(p[st.offset])
    ensures match One(r, p, end, st.offset, |st.labels|)
            case None => Run(r, p, end, st).Fail?
            case Some(x) =>
              if st.offset < x.1 <= |p| then
                Run(r, p, end, st) == Run(r, p, end, WithCurrent(st, x.1, Current(st) + [x.0]))
              else Run(r, p, end, st).Fail?
    decreases |p| - st.offset, 0
  {
    hide Get, Put, PathOf, Instruction, FromCode, Run, Sequence, Finish, BlockSig;
    var i := st.offset;
    if !IsBlock(p[i]) {
      RunInstruction(r, p, end, st);
    } else {
      BlockTypeReads(r.types, p, i + 1);
      match BlockSig(r.types, p, i + 1)
      case None => BadBlock(r, p, end, st);
      case Some(d) =>
        if |st.labels| >= MAX_NESTING_DEPTH {
          BadBlock(r, p, end, st);
        } else {
          RunBlock(r, p, end, st, d.0, d.1);
        }
    }
  }

  /** The opcode of a block, its label and the expression that it begins. */
  function BlockStart(b: byte, d: BlockDecl): (Opcode, Label, Expr) {
    if b == 0x02 then (BlockOp, Label(BlockLabel, BodySlot), Block("", d, []))
    else if b == 0x03 then (LoopOp, Label(LoopLabel, BodySlot), Loop("", d, []))
    else if b == 0x04 then (IfOp, Label(IfLabel, ThenSlot), If("", d, [], []))
    else (TryOp, Label(TryLabel, BodySlot), Try("", d, [], PlainTry, [], Index(0)))
  }

  lemma BadBlock(r: Reader, p: seq<byte>, end: nat, st: State)
    requires Ready(st) && st.offset < end <= |p| && IsBlock(p[st.offset])
    requires ReadBlockType(r.types, p, st.offset + 1).None? || |st.labels| >= MAX_NESTING_DEPTH
    ensures Run(r, p, end, st).Fail?
  {
    hide FromCode, ReadBlockType, Get, Put, PathOf, Run;
    CodesOfStructure(p[st.offset]);
    RunFails(r, p, end, st);
  }

  /** A block whose signature has been read. */
  lemma {:induction false} RunBlock(r: Reader, p: seq<byte>, end: nat, st: State, d: BlockDecl, next: nat)
    requires Ready(st) && st.offset < end <= |p| && IsBlock(p[st.offset]) && |st.labels| < MAX_NESTING_DEPTH
    requires BlockSig(r.types, p, st.offset + 1) == Some((d, next)) && st.offset < next <= |p|
    ensures match One(r, p, end, st.offset, |st.labels|)
            case None => Run(r, p, end, st).Fail?
            case Some(x) =>
              st.offset < x.1 <= |p| && Run(r, p, end, st) == Run(r, p, end, WithCurrent(st, x.1, Current(st) + [x.0]))
    decreases |p| - st.offset, 0, 0
  {
    hide Get, Put, PathOf, FromCode, Run, Sequence, Finish, BlockSig, EndingAt, ReadBlockType;
    var b := p[st.offset];
    var (op, top, e0) := BlockStart(b, d);
    BlockTypeReads(r.types, p, st.offset + 1);
    CodesOfStructure(b);
    RunOpen(r, p, end, st, op, top, e0, d, next);
    BuildingList(st, next, op, top, e0);
    RunSequence(r, p, end, Building(st, next, op, top, e0));
    match Sequence(r, p, end, next, |st.labels| + 1)
    case None =>
    case Some(x) =>
      assert [] + x.es == x.es;
      RunFinish(r, p, end, st, d, x);
  }

  /** Where the first sequence of a block was stopped. */
  lemma {:induction false} RunFinish(r: Reader, p: seq<byte>, end: nat, st: State, d: BlockDecl, x: Item)
    requires Ready(st) && st.offset < x.at < end <= |p| && IsBlock(p[st.offset])
    requires IsEnding(p[x.at]) && EndingAt(p, x.at) == Some((x.ending, x.next)) && x.at < x.next <= |p|
    ensures var (op, top, e0) := BlockStart(p[st.offset], d);
            var b := Building(st, x.at, op, top, WithList(e0, top.slot, x.es));
            match Finish(r, p, end, st.offset, |st.labels|, d, x)
            case None => Run(r, p, end, b).Fail?
            case Some(y) =>
              st.offset < y.1 <= |p| && Run(r, p, end, b) == Run(r, p, end, WithCurrent(st, y.1, Current(st) + [y.0]))
    decreases |p| - x.at, 3
  {
    hide Get, Put, PathOf, FromCode, Run, Sequence, Clauses, EndingAt, Building, WithCurrent, Current, Ready;
    var b := p[st.offset];
    var (op, top, e0) := BlockStart(b, d);
    var e1 := WithList(e0, top.slot, x.es);
    ReadyIs(st);
    CodesOfStructure(p[x.at]);
    EndingIs(p, x.at);
    match x.ending {
      case End => RunEnd(r, p, end, st, x.at, op, top, e1);
      case Else =>
        if b == 0x04 { RunArm(r, p, end, st, d, x); } else { MisplacedFails(r, p, end, st, x.at, op, top, e1); }
      case DelegateTo(n) =>
        if b == 0x06 {
          UnsignedReads(p, x.at + 1);
          RunDelegate(r, p, end, st, x.at, e1, n, x.next);
        } else {
          MisplacedFails(r, p, end, st, x.at, op, top, e1);
        }
      case CatchOf(tag) =>
        if b == 0x06 {
          RunFirstClause(r, p, end, st, d, x);
        } else {
          MisplacedFails(r, p, end, st, x.at, op, top, e1);
        }
    }
  }

  lemma ReadyIs(st: State)
    ensures Ready(st) <==> st.labels != [] && Get(st.root, PathOf(st.labels)).Some?
  {}

  /** A try whose body was stopped by a clause. */
  lemma {:induction false} RunFirstClause(r: Reader, p: seq<byte>, end: nat, st: State, d: BlockDecl, x: Item)
    requires Ready(st) && st.offset < x.at < end <= |p| && x.ending.CatchOf?
    requires IsEnding(p[x.at]) && EndingAt(p, x.at) == Some((x.ending, x.next)) && x.at < x.next <= |p|
    ensures var e1 := Try("", d, x.es, PlainTry, [], Index(0));
            var b := Building(st, x.at, TryOp, Label(TryLabel, BodySlot), e1);
            match Clauses(r, p, end, x.next, |st.labels| + 1, x.ending.tag)
            case None => Run(r, p, end, b).Fail?
            case Some(cs) =>
              && st.offset < cs.1 <= |p|
              && Run(r, p, end, b) == Run(r, p, end,
                  WithCurrent(st, cs.1, Current(st) + [Try("", d, x.es, CatchTry, cs.0, Index(0))]))
    decreases |p| - x.at, 2
  {
    hide Get, Put, PathOf, FromCode, Run, Clauses, EndingAt, Building, WithCurrent, Current, Ready;
    var e1 := Try("", d, x.es, PlainTry, [], Index(0));
    ReadyIs(st);
    CodesOfStructure(p[x.at]);
    EndingIs(p, x.at);
    UnsignedReads(p, x.at + 1);
    RunCatch(r, p, end, st, x.at, BodySlot, e1, x.ending.tag, x.next);
    RunClauses(r, p, end, st, x.next, e1, [], x.ending.tag);
    var cs := Clauses(r, p, end, x.next, |st.labels| + 1, x.ending.tag);
    if cs.Some? { assert [] + cs.value.0 == cs.value.0; }
  }

  lemma EndingIs(p: seq<byte>, i: nat)
    requires i < |p| && IsEnding(p[i]) && EndingAt(p, i).Some?
    ensures var (x, next) := (EndingAt(p, i).value.0, EndingAt(p, i).value.1);
            && (x == End <==> p[i] == 0x0b) && (x == Else <==> p[i] == 0x05)
            && (x == End || x == Else || x == CatchOf(None) ==> next == i + 1)
            && (x == CatchOf(None) <==> p[i] == 0x19) && (x.DelegateTo? <==> p[i] == 0x18)
            && (x.CatchOf? && x.tag.Some? <==> p[i] == 0x07)
            && (x.DelegateTo? ==> Unsigned(p, i + 1) == Some((x.depth, next)))
            && (x.CatchOf? && x.tag.Some? ==> Unsigned(p, i + 1) == Some((x.tag.value, next)))
  {
    hide Unsigned;
  }

  /** The second arm of a conditional, behind the first one, which is `x`. */
  lemma {:induction false} RunArm(r: Reader, p: seq<byte>, end: nat, st: State, d: BlockDecl, x: Item)
    requires Ready(st) && end <= |p| && x.ending == Else
    requires st.offset < x.at < end && x.next == x.at + 1 && FromCode(p[x.at]) == Some(ElseOp)
    ensures var top := Label(IfLabel, ThenSlot);
            var b := Building(st, x.at, IfOp, top, If("", d, x.es, []));
            match Sequence(r, p, end, x.next, |st.labels| + 1)
            case None => Run(r, p, end, b).Fail?
            case Some(y) =>
              if y.ending == End then
                st.offset < y.next <= |p| && Run(r, p, end, b)
                    == Run(r, p, end, WithCurrent(st, y.next, Current(st) + [If("", d, x.es, y.es)]))
              else Run(r, p, end, b).Fail?
    decreases |p| - x.at, 0
  {
    hide Get, Put, PathOf, FromCode, Run, Sequence, EndingAt;
    var top := Label(ElseLabel, ElseSlot);
    var e1 := If("", d, x.es, []);
    RunElse(r, p, end, st, x.at, e1);
    BuildingList(st, x.next, IfOp, top, e1);
    RunSequence(r, p, end, Building(st, x.next, IfOp, top, e1));
    match Sequence(r, p, end, x.next, |st.labels| + 1)
    case None =>
    case Some(y) =>
      assert [] + y.es == y.es;
      CodesOfStructure(p[y.at]);
      EndingIs(p, y.at);
      if y.ending == End {
        RunEnd(r, p, end, st, y.at, IfOp, top, If("", d, x.es, y.es));
      } else {
        MisplacedFails(r, p, end, st, y.at, IfOp, top, If("", d, x.es, y.es));
      }
  }

  /** From inside the clause for `tag` on, with the clauses `done` before it. */
  lemma {:induction false} RunClauses(r: Reader, p: seq<byte>, end: nat, st: State, offset: nat, e: Expr,
      done: seq<Catch>, tag: Option<nat>)
    requires Ready(st) && end <= |p| && e.Try? && st.offset < offset <= |p|
    ensures var b := Building(st, offset, TryOp, Label(TryLabel, CatchSlot),
                e.(kind := CatchTry, catches := done + [Catch(tag, [])]));
            match Clauses(r, p, end, offset, |st.labels| + 1, tag)
            case None => Run(r, p, end, b).Fail?
            case Some(cs) =>
              st.offset < cs.1 <= |p| && Run(r, p, end, b)
                  == Run(r, p, end, WithCurrent(st, cs.1, Current(st) + [e.(kind := CatchTry, catches := done + cs.0)]))
    decreases |p| - offset, 2
  {
    hide Get, Put, PathOf, FromCode, Run, Sequence, EndingAt;
    var top := Label(TryLabel, CatchSlot);
    var e0 := e.(kind := CatchTry, catches := done + [Catch(tag, [])]);
    BuildingList(st, offset, TryOp, top, e0);
    RunSequence(r, p, end, Building(st, offset, TryOp, top, e0));
    match Sequence(r, p, end, offset, |st.labels| + 1)
    case None =>
    case Some(x) =>
      assert [] + x.es == x.es;
      assert SetLast(e0.catches, Catch(tag, x.es)) == done + [Catch(tag, x.es)];
      RunClauseEnd(r, p, end, st, e, done, tag, x);
  }

  /** Where the sequence of a clause was stopped. */
  lemma {:induction false} RunClauseEnd(r: Reader, p: seq<byte>, end: nat, st: State, e: Expr, done: seq<Catch>,
      tag: Option<nat>, x: Item)
    requires Ready(st) && e.Try? && st.offset < x.at < end <= |p|
    requires IsEnding(p[x.at]) && EndingAt(p, x.at) == Some((x.ending, x.next)) && x.at < x.next <= |p|
    ensures var c := Catch(tag, x.es);
            var b := Building(st, x.at, TryOp, Label(TryLabel, CatchSlot),
                e.(kind := CatchTry, catches := done + [c]));
            match x.ending
            case End =>
              Run(r, p, end, b) == Run(r, p, end,
                  WithCurrent(st, x.next, Current(st) + [e.(kind := CatchTry, catches := done + [c])]))
            case CatchOf(tag1) =>
              (match Clauses(r, p, end, x.next, |st.labels| + 1, tag1)
               case None => Run(r, p, end, b).Fail?
               case Some(cs) =>
                 if tag == None && tag1 == None then Run(r, p, end, b).Fail?
                 else
                   st.offset < cs.1 <= |p| && Run(r, p, end, b) == Run(r, p, end,
                       WithCurrent(st, cs.1, Current(st) + [e.(kind := CatchTry, catches := done + ([c] + cs.0))])))
            case _ => Run(r, p, end, b).Fail?
    decreases |p| - x.at, 1
  {
    hide Get, Put, PathOf, FromCode, Run, Clauses, EndingAt, Building, WithCurrent, Current, Ready;
    var (top, e1) := (Label(TryLabel, CatchSlot), e.(kind := CatchTry, catches := done + [Catch(tag, x.es)]));
    ReadyIs(st);
    CodesOfStructure(p[x.at]);
    EndingIs(p, x.at);
    if x.ending == End {
      RunEnd(r, p, end, st, x.at, TryOp, top, e1);
    } else if x.ending.CatchOf? && !(tag == None && x.ending.tag == None) {
      UnsignedReads(p, x.at + 1);
      RunCatch(r, p, end, st, x.at, CatchSlot, e1, x.ending.tag, x.next);
      RunClauses(r, p, end, st, x.next, e, e1.catches, x.ending.tag);
      var cs := Clauses(r, p, end, x.next, |st.labels| + 1, x.ending.tag);
      if cs.Some? { assert done + [Catch(tag, x.es)] + cs.value.0 == done + ([Catch(tag, x.es)] + cs.value.0); }
    } else {
      MisplacedFails(r, p, end, st, x.at, TryOp, top, e1);
    }
  }

  // ----- bodies -----

  /** On all bytes: the reader succeeds exactly where the grammar has a body, with the tree that
      it means and the cursor behind it. */
  lemma ReadsExactly(r: Reader, p: seq<byte>, end: nat, offset: nat)
    requires end <= |p|
    ensures Run(r, p, end, BodyStart(offset)) ==
              match Body(r, p, end, offset)
              case None => Fail(Malformed)
              case Some(x) => Stop(State(x.1, [], [], x.0))
  {
    hide Run, Sequence, FromCode, EndingAt, InStep;
    var st := BodyStart(offset);
    StartInStep(offset);
    LockStep(r, p, end, st);
    assert PathOf(st.labels) == [];
    RunSequence(r, p, end, st);
    match Sequence(r, p, end, offset, 1)
    case None =>
    case Some(x) =>
      var st1 := WithCurrent(st, x.at, Current(st) + x.es);
      assert Current(st) + x.es == x.es;
      CodesOfStructure(p[x.at]);
      EndingIs(p, x.at);
      if x.ending == End {
        LastEnd(r, p, st1);
        LastTurn(r, p, end, st1);
      } else {
        OutermostFails(r, p, end, st1);
      }
  }

  lemma LastTurn(r: Reader, p: seq<byte>, end: nat, st: State)
    requires st.offset < end && Step(r, p, st).Stop?
    ensures Run(r, p, end, st) == Step(r, p, st)
  {
    hide Step;
  }

  /** What the writer puts out for a body means, by the grammar, that body up to signatures. */
  lemma WrittenMeans(r: Reader, o: BinaryWriter.Options, p: seq<byte>, offset: nat, end: nat, es: seq<Expr>)
    requires WellFormed(r, es) && Nesting(es) < MAX_NESTING_DEPTH
    requires var bytes := BinaryWriter.Bytes(o, EmitList(r.types, es) + [Opcode1(EndOp)]);
             Stands(p, offset, bytes) && end == offset + |bytes|
    ensures Body(r, p, end, offset) == Some((Normal(r.types, es), end))
  {
    hide Run, Body, WellFormed, Normal, Nesting, EmitList, BinaryWriter.Bytes;
    BodyRoundTrip(r, o, p, offset, end, es);
    ReadsExactly(r, p, end, offset);
  }
}

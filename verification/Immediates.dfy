/** Immediates of the instructions without nested instructions: what the writer emits and how
    the reader decodes it. */
module Immediates {
  import opened Ir
  import opened Numbers
  import opened Leb128
  import opened BinaryWriter
  import opened Opcodes

  datatype Features = Features(multiMemory: bool, memory64: bool)

  /** The 8-byte and 4-byte little-endian forms. */
  function LeBytes(x: nat, n: nat): (s: seq<byte>)
    ensures |s| == n
  {
    if n == 0 then [] else [x % 256] + LeBytes(x / 256, n - 1)
  }

  function ReadLe(p: seq<byte>, i: nat, n: nat): Option<Parsed>
    decreases n
  {
    if n == 0 then Some(Parsed(0, i))
    else if i >= |p| then None
    else match ReadLe(p, i + 1, n - 1)
         case None => None
         case Some(r) => Some(Parsed(p[i] + 256 * r.value, r.next))
  }

  /** log2_u32. */
  function Log2(x: nat): nat {
    if x <= 1 then 0 else 1 + Log2(x / 2)
  }

  // ----- writing -----

  function Opcode1(op: Opcode): Chunk { Raw([Code(op)]) }

  function EmitIndex(form: IndexForm, x: u32): seq<Chunk> {
    [Opcode1(IndexOp(form)),
     match form
     case CallForm => Indexed(FuncIndexLEB, x)
     case GlobalGetForm => Indexed(GlobalIndexLEB, x)
     case GlobalSetForm => Indexed(GlobalIndexLEB, x)
     case _ => Raw(EncodeU(x))]
  }

  function EmitConst(v: Value): seq<Chunk> {
    [Opcode1(ConstOp(v.ty)),
     match v.ty
     case I32 => Raw(EncodeS(Twos(TWO_TO_31, v.bits)))
     case I64 => Raw(EncodeS(Twos(TWO_TO_63, v.bits)))
     case F32 => Raw(LeBytes(v.bits, 4))
     case F64 => Raw(LeBytes(v.bits, 8))]
  }

  /** Alignment exponent with the memory flag, then the memory when it is not the first, then
      the offset. */
  function EmitMemory(op: Opcode, align: nat, memidx: nat, offset: nat): seq<Chunk> {
    [Opcode1(op)]
    + (if memidx != 0 then [Raw([(Log2(align) + 64) % 256]), Raw(EncodeU(memidx))] else [Raw([Log2(align) % 256])])
    + [Raw(EncodeU(offset))]
  }

  function Index32(x: nat): u32 { if x < TWO_TO_32 then x else 0 }

  function EmitInstr(i: Instr): seq<Chunk> {
    match i
    case Const(v) => EmitConst(v)
    case LocalGet(x) => EmitIndex(LocalGetForm, Index32(x))
    case LocalSet(x) => EmitIndex(LocalSetForm, Index32(x))
    case LocalTee(x) => EmitIndex(LocalTeeForm, Index32(x))
    case GlobalGet(x) => EmitIndex(GlobalGetForm, Index32(x))
    case GlobalSet(x) => EmitIndex(GlobalSetForm, Index32(x))
    case Call(x) => EmitIndex(CallForm, Index32(x))
    case Load(acc, align, k, offset) => EmitMemory(LoadOp(acc), align, k, offset)
    case Store(acc, align, k, offset) => EmitMemory(StoreOp(acc), align, k, offset)
    case _ => [Opcode1(SimpleOp(i))]
  }

  // ----- reading -----

  function ReadConst(ty: Type, p: seq<byte>, i: nat): Option<(Value, nat)> {
    var r := match ty
             case I32 => ReadS32(p, i)
             case I64 => ReadS64(p, i)
             case F32 => ReadLe(p, i, 4)
             case F64 => ReadLe(p, i, 8);
    match r
    case None => None
    case Some(x) => if x.value >= 0 then Some((Value(ty, x.value), x.next)) else None
  }

  function IndexInstr(form: IndexForm, x: nat): Instr {
    match form
    case CallForm => Call(x)
    case LocalGetForm => LocalGet(x)
    case LocalSetForm => LocalSet(x)
    case LocalTeeForm => LocalTee(x)
    case GlobalGetForm => GlobalGet(x)
    case GlobalSetForm => GlobalSet(x)
  }

  datatype Location = Location(align: nat, memidx: nat, offset: nat, next: nat)

  /** ReadMemLocation. */
  function ReadMemLocation(f: Features, p: seq<byte>, i: nat): Option<Location> {
    match ReadU32(p, i)
    case None => None
    case Some(a) =>
      var has := a.value / 64 % 2 == 1;
      var log2 := if has then a.value - 64 else a.value;
      if log2 >= 32 || log2 < 0 then None
      else
        var m := if has then ReadU32(p, a.next) else Some(Parsed(0, a.next));
        if has && !f.multiMemory then None
        else match m
             case None => None
             case Some(k) =>
               match (if f.memory64 then ReadU64(p, k.next) else ReadU32(p, k.next))
               case None => None
               case Some(o) => if o.value >= 0
                   && k.value >= 0 then Some(Location(Pow2(log2), k.value, o.value, o.next)) else None
  }

  /** The instruction of an opcode other than those of blocks and branches. */
  function ReadInstr(f: Features, op: Opcode, p: seq<byte>, i: nat): Option<(Instr, nat)> {
    match op
    case SimpleOp(x) => Some((x, i))
    case ConstOp(ty) =>
      (match ReadConst(ty, p, i)
       case None => None
       case Some(r) => Some((Const(r.0), r.1)))
    case IndexOp(form) =>
      (match ReadU32(p, i)
       case None => None
       case Some(r) => if r.value >= 0 then Some((IndexInstr(form, r.value), r.next)) else None)
    case LoadOp(acc) =>
      (match ReadMemLocation(f, p, i)
       case None => None
       case Some(m) => Some((Load(acc, m.align, m.memidx, m.offset), m.next)))
    case StoreOp(acc) =>
      (match ReadMemLocation(f, p, i)
       case None => None
       case Some(m) => Some((Store(acc, m.align, m.memidx, m.offset), m.next)))
    case _ => None
  }

  /** Reading only moves forward. */
  lemma ReadU32Forward(p: seq<byte>, i: nat)
    ensures ReadU32(p, i).Some? ==> i < ReadU32(p, i).value.next <= |p| && 0 <= ReadU32(p, i).value.value < TWO_TO_32
  {
    ReadU32IsGrammar(p, i);
    if ReadU32(p, i).Some? { GrammarRange(32, p, i); Pow2Values(); }
  }

  lemma {:induction false} GrammarRange(n: nat, p: seq<byte>, i: nat)
    requires GrammarU(n, p, i).Some?
    ensures i < GrammarU(n, p, i).value.next <= |p| && 0 <= GrammarU(n, p, i).value.value < Pow2(n)
    decreases n
  {
    if p[i] >= 128 {
      Pow2Shift(n);
      GrammarRange(n - 7, p, i + 1);
    }
  }

  lemma {:induction false} ReadLeForward(p: seq<byte>, i: nat, n: nat)
    requires n > 0
    ensures ReadLe(p, i, n).Some? ==> i < ReadLe(p, i, n).value.next <= |p|
    decreases n
  {
    if n > 1 { ReadLeForward(p, i + 1, n - 1); }
  }

  lemma ReadSForward(p: seq<byte>, i: nat)
    ensures ReadS32(p, i).Some? ==> i < ReadS32(p, i).value.next <= |p|
    ensures ReadS64(p, i).Some? ==> i < ReadS64(p, i).value.next <= |p|
    ensures ReadU64(p, i).Some? ==> i < ReadU64(p, i).value.next <= |p|
  {
    hide Leb, SignExtend;
  }

  lemma ReadInstrForward(f: Features, op: Opcode, p: seq<byte>, i: nat)
    requires i <= |p|
    ensures ReadInstr(f, op, p, i).Some? ==> i <= ReadInstr(f, op, p, i).value.1 <= |p|
  {
    hide ReadU32, ReadS32, ReadS64, ReadU64, ReadLe;
    match op
    case ConstOp(ty) => ReadSForward(p, i); ReadLeForward(p, i, 4); ReadLeForward(p, i, 8);
    case IndexOp(form) => ReadU32Forward(p, i);
    case LoadOp(acc) => MemForward(f, p, i);
    case StoreOp(acc) => MemForward(f, p, i);
    case _ =>
  }

  lemma MemForward(f: Features, p: seq<byte>, i: nat)
    ensures ReadMemLocation(f, p, i).Some? ==> i < ReadMemLocation(f, p, i).value.next <= |p|
  {
    hide ReadU32, ReadU64;
    ReadU32Forward(p, i);
    match ReadU32(p, i)
    case None =>
    case Some(a) =>
      ReadU32Forward(p, a.next);
      ReadSForward(p, a.next);
      match ReadU32(p, a.next)
      case None =>
      case Some(k) => ReadU32Forward(p, k.next); ReadSForward(p, k.next);
  }

  // ----- round trip -----

  /** The domain: values of their width, 32-bit indices, alignments that are powers of two,
      and the features the immediates need. */
  predicate Encodable(f: Features, i: Instr) {
    match i
    case Const(v) => v.bits < (if v.ty == I32 || v.ty == F32 then TWO_TO_32 else TWO_TO_64)
    case LocalGet(x) => x < TWO_TO_32
    case LocalSet(x) => x < TWO_TO_32
    case LocalTee(x) => x < TWO_TO_32
    case GlobalGet(x) => x < TWO_TO_32
    case GlobalSet(x) => x < TWO_TO_32
    case Call(x) => x < TWO_TO_32
    case Load(acc, align, k, offset) => acc in LOADS && MemoryOk(f, align, k, offset)
    case Store(acc, align, k, offset) => acc in STORES && MemoryOk(f, align, k, offset)
    case _ => Exists(SimpleOp(i))
  }

  predicate MemoryOk(f: Features, align: nat, memidx: nat, offset: nat) {
    && Log2(align) < 32 && align == Pow2(Log2(align))
    && memidx < TWO_TO_32 && (memidx != 0 ==> f.multiMemory)
    && offset < (if f.memory64 then TWO_TO_64 else TWO_TO_32)
  }

  lemma StandsSplit(p: seq<byte>, i: nat, a: seq<byte>, b: seq<byte>)
    requires Stands(p, i, a + b)
    ensures Stands(p, i, a) && Stands(p, i + |a|, b) && i + |a| + |b| <= |p|
  {
    assert p[i..i + |a|] == (a + b)[..|a|];
    assert p[i + |a|..i + |a| + |b|] == (a + b)[|a|..];
  }

  lemma {:induction false} LeReads(x: nat, n: nat, p: seq<byte>, i: nat)
    requires Stands(p, i, LeBytes(x, n)) && x < Pow2(8 * n)
    ensures ReadLe(p, i, n) == Some(Parsed(x, i + n))
    decreases n
  {
    if n > 0 {
      StandsTail(p, i, LeBytes(x, n));
      assert LeBytes(x, n)[1..] == LeBytes(x / 256, n - 1);
      Pow2Eight(8 * (n - 1));
      LeReads(x / 256, n - 1, p, i + 1);
    }
  }

  /** An index reads back as itself, with or without a relocation. */
  lemma IndexReads(o: Options, kind: RelocType, x: u32, p: seq<byte>, i: nat)
    requires Stands(p, i, IndexBytes(o, kind, x))
    ensures SignedKind(kind) ==> ReadS32(p, i) == Some(Parsed(x, i + |IndexBytes(o, kind, x)|))
    ensures !SignedKind(kind) ==> ReadU32(p, i) == Some(Parsed(x, i + |IndexBytes(o, kind, x)|))
  {
    hide ReadS32, ReadU32, FixedS32, FixedU32, EncodeS, EncodeU, Stands;
    if SignedKind(kind) {
      if Relocates(o, kind) { FixedS32Reads(x, p, i); } else { RoundTripS32(x, p, i); }
    } else {
      if Relocates(o, kind) { FixedU32Reads(x, p, i); } else { RoundTripU32(x, p, i); }
    }
  }

  lemma TwoBytes(o: Options, a: Chunk, b: Chunk)
    ensures Bytes(o, [a, b]) == ChunkBytes(o, a) + ChunkBytes(o, b)
  {
    assert [a, b][1..] == [b];
    OneChunk(o, b, 0);
  }

  /** Every instruction in the domain is read back, from anywhere, with exactly its bytes. */
  lemma InstrReads(o: Options, f: Features, i: Instr, p: seq<byte>, at: nat)
    requires Encodable(f, i) && Stands(p, at, Bytes(o, EmitInstr(i)))
    ensures at < |p| && FromCode(p[at]).Some?
    ensures ReadInstr(f, FromCode(p[at]).value, p, at + 1) == Some((i, at + |Bytes(o, EmitInstr(i))|))
  {
    hide FromCode, ReadInstr, EmitConst, EmitIndex, EmitMemory, MemoryOk, Bytes, Stands, Code;
    match i
    case Const(v) => ConstReads(o, f, v, p, at);
    case LocalGet(x) => IndexInstrReads(o, f, LocalGetForm, x, p, at);
    case LocalSet(x) => IndexInstrReads(o, f, LocalSetForm, x, p, at);
    case LocalTee(x) => IndexInstrReads(o, f, LocalTeeForm, x, p, at);
    case GlobalGet(x) => IndexInstrReads(o, f, GlobalGetForm, x, p, at);
    case GlobalSet(x) => IndexInstrReads(o, f, GlobalSetForm, x, p, at);
    case Call(x) => IndexInstrReads(o, f, CallForm, x, p, at);
    case Load(acc, align, k, offset) => MemoryReads(o, f, LoadOp(acc), align, k, offset, p, at);
    case Store(acc, align, k, offset) => MemoryReads(o, f, StoreOp(acc), align, k, offset, p, at);
    case _ => SimpleReads(o, f, i, p, at);
  }

  lemma SimpleReads(o: Options, f: Features, i: Instr, p: seq<byte>, at: nat)
    requires Exists(SimpleOp(i)) && Stands(p, at, Bytes(o, [Opcode1(SimpleOp(i))]))
    ensures at < |p| && FromCode(p[at]).Some?
    ensures ReadInstr(f, FromCode(p[at]).value, p, at + 1) == Some((i, at + |Bytes(o, [Opcode1(SimpleOp(i))])|))
  {
    hide FromCode, Code;
    OneChunk(o, Opcode1(SimpleOp(i)), 0);
    CodeDecodes(SimpleOp(i));
    StandsTail(p, at, [Code(SimpleOp(i))]);
  }

  /** The opcode byte in front of anything. */
  lemma OpcodeFirst(op: Opcode, rest: seq<byte>, p: seq<byte>, at: nat)
    requires Exists(op) && Stands(p, at, [Code(op)] + rest)
    ensures at < |p| && FromCode(p[at]) == Some(op) && Stands(p, at + 1, rest)
  {
    hide FromCode, Code;
    CodeDecodes(op);
    StandsSplit(p, at, [Code(op)], rest);
    StandsTail(p, at, [Code(op)]);
  }

  lemma ConstReads(o: Options, f: Features, v: Value, p: seq<byte>, at: nat)
    requires Encodable(f, Const(v)) && Stands(p, at, Bytes(o, EmitConst(v)))
    ensures at < |p| && FromCode(p[at]).Some?
    ensures ReadInstr(f, FromCode(p[at]).value, p, at + 1) == Some((Const(v), at + |Bytes(o, EmitConst(v))|))
  {
    hide FromCode, Code, Stands, Bytes, ReadS32, ReadS64, ReadLe, EncodeS, LeBytes, Pow2;
    var cs := EmitConst(v);
    TwoBytes(o, cs[0], cs[1]);
    OpcodeFirst(ConstOp(v.ty), cs[1].bytes, p, at);
    ByteWidths();
    match v.ty
    case I32 => RoundTripS32(v.bits, p, at + 1);
    case I64 => RoundTripS64(v.bits, p, at + 1);
    case F32 => LeReads(v.bits, 4, p, at + 1);
    case F64 => LeReads(v.bits, 8, p, at + 1);
  }

  lemma ByteWidths()
    ensures Pow2(8 * 4) == TWO_TO_32 && Pow2(8 * 8) == TWO_TO_64
  {
    Pow2Values();
  }

  lemma IndexInstrReads(o: Options, f: Features, form: IndexForm, x: nat, p: seq<byte>, at: nat)
    requires x < TWO_TO_32 && Stands(p, at, Bytes(o, EmitIndex(form, x)))
    ensures at < |p| && FromCode(p[at]).Some?
    ensures ReadInstr(f, FromCode(p[at]).value, p, at + 1)
        == Some((IndexInstr(form, x), at + |Bytes(o, EmitIndex(form, x))|))
  {
    hide FromCode, Code, Stands, Bytes, ReadU32, EncodeU, IndexBytes;
    var cs := EmitIndex(form, x);
    TwoBytes(o, cs[0], cs[1]);
    OpcodeFirst(IndexOp(form), ChunkBytes(o, cs[1]), p, at);
    match cs[1]
    case Raw(_) => RoundTripU32(x, p, at + 1);
    case Indexed(kind, _) => IndexReads(o, kind, x, p, at + 1);
  }

  /** The bytes of a memory access. */
  function MemoryBytes(op: Opcode, align: nat, memidx: nat, offset: nat): seq<byte> {
    [Code(op)] + (if memidx != 0 then [(Log2(align) + 64) % 256] + EncodeU(memidx) else [Log2(align) % 256])
        + EncodeU(offset)
  }

  lemma MemoryIs(o: Options, op: Opcode, align: nat, memidx: nat, offset: nat)
    ensures Bytes(o, EmitMemory(op, align, memidx, offset)) == MemoryBytes(op, align, memidx, offset)
  {
    hide EncodeU, Code;
    var last := Raw(EncodeU(offset));
    OneChunk(o, last, 0);
    OneChunk(o, Opcode1(op), 0);
    if memidx != 0 {
      var a, b := Raw([(Log2(align) + 64) % 256]), Raw(EncodeU(memidx));
      TwoBytes(o, a, b);
      BytesJoin(o, [Opcode1(op)], [a, b]);
      BytesJoin(o, [Opcode1(op)] + [a, b], [last]);
    } else {
      var a := Raw([Log2(align) % 256]);
      OneChunk(o, a, 0);
      BytesJoin(o, [Opcode1(op)], [a]);
      BytesJoin(o, [Opcode1(op)] + [a], [last]);
    }
  }

  lemma MemoryReads(o: Options, f: Features, op: Opcode, align: nat, memidx: nat, offset: nat, p: seq<byte>, at: nat)
    requires (op.LoadOp? || op.StoreOp?) && Exists(op) && MemoryOk(f, align, memidx, offset)
    requires Stands(p, at, Bytes(o, EmitMemory(op, align, memidx, offset)))
    ensures at < |p| && FromCode(p[at]) == Some(op)
    ensures var i := if op.LoadOp? then Load(op.acc, align, memidx, offset)
                     else Store(op.acc, align, memidx, offset);
            ReadInstr(f, op, p, at + 1) == Some((i, at + |Bytes(o, EmitMemory(op, align, memidx, offset))|))
  {
    hide FromCode, Code, Stands, EmitMemory, Bytes, ReadU32, ReadU64, EncodeU, Log2, ReadMemLocation, MemoryBytes;
    MemoryIs(o, op, align, memidx, offset);
    MemoryStart(op, align, memidx, offset, p, at);
    var j := at + 2 + if memidx != 0 then |EncodeU(memidx)| else 0;
    if f.memory64 { RoundTripU64(offset, p, j); } else { RoundTripU32(offset, p, j); }
    LocationIs(f, p, at + 1, Log2(align), memidx, offset, j);
  }

  /** What stands in front of the offset. */
  lemma MemoryStart(op: Opcode, align: nat, memidx: nat, offset: nat, p: seq<byte>, at: nat)
    requires Exists(op) && memidx < TWO_TO_32 && Log2(align) < 32
    requires Stands(p, at, MemoryBytes(op, align, memidx, offset))
    ensures at < |p| && FromCode(p[at]) == Some(op)
    ensures var (log2, j) := (Log2(align), at + 2 + if memidx != 0 then |EncodeU(memidx)| else 0);
            && ReadU32(p, at + 1) == Some(Parsed(if memidx != 0 then log2 + 64 else log2, at + 2))
            && (memidx != 0 ==> ReadU32(p, at + 2) == Some(Parsed(memidx, j)))
            && Stands(p, j, EncodeU(offset)) && |MemoryBytes(op, align, memidx, offset)| == j + |EncodeU(offset)| - at
  {
    hide FromCode, Code, Stands, ReadU32, EncodeU, Log2;
    var log2 := Log2(align);
    if memidx != 0 {
      var rest := [log2 + 64] + (EncodeU(memidx) + EncodeU(offset));
      assert MemoryBytes(op, align, memidx, offset) == [Code(op)] + rest;
      OpcodeFirst(op, rest, p, at);
      StandsSplit(p, at + 1, [log2 + 64], EncodeU(memidx) + EncodeU(offset));
      StandsSplit(p, at + 2, EncodeU(memidx), EncodeU(offset));
      LowByte(log2 + 64, p, at + 1);
      RoundTripU32(memidx, p, at + 2);
    } else {
      var rest := [log2] + EncodeU(offset);
      assert MemoryBytes(op, align, memidx, offset) == [Code(op)] + rest;
      OpcodeFirst(op, rest, p, at);
      StandsSplit(p, at + 1, [log2], EncodeU(offset));
      LowByte(log2, p, at + 1);
    }
  }

  lemma LowByte(b: byte, p: seq<byte>, i: nat)
    requires b < 128 && Stands(p, i, [b])
    ensures ReadU32(p, i) == Some(Parsed(b, i + 1))
  {
    StandsTail(p, i, [b]);
  }

  lemma LocationIs(f: Features, p: seq<byte>, i: nat, log2: nat, memidx: nat, offset: nat, j: nat)
    requires log2 < 32 && (memidx != 0 ==> f.multiMemory)
    requires ReadU32(p, i) == Some(Parsed(if memidx != 0 then log2 + 64 else log2, i + 1))
    requires if memidx != 0 then ReadU32(p, i + 1) == Some(Parsed(memidx, j)) else j == i + 1
    requires var r := if f.memory64 then ReadU64(p, j) else ReadU32(p, j);
        r == Some(Parsed(offset, j + |EncodeU(offset)|))
    ensures ReadMemLocation(f, p, i) == Some(Location(Pow2(log2), memidx, offset, j + |EncodeU(offset)|))
  {
    hide ReadU32, ReadU64, EncodeU;
  }
}

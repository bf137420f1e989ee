/** The size of an instruction tree in the binary format, and where in its bytes the indices
    stand that the writer makes relocations for, read off the tree. */
module TreeRelocs {
  import opened Ir
  import opened Leb128
  import opened BinaryWriter
  import opened Opcodes
  import opened Immediates
  import opened TreeCodec

  // ----- sizes -----

  /** The number of seven-bit groups. */
  function UnsignedSize(x: nat): nat { if x < 128 then 1 else 1 + UnsignedSize(x / 128) }

  function SignedSize(x: int): nat
    decreases if x < 0 then -x else x
  {
    if -64 <= x < 64 then 1 else 1 + SignedSize(x / 128)
  }

  /** An index for which there may be a relocation takes five bytes if there are relocations. */
  function IndexSize(o: Options, x: nat): nat { if o.relocatable then 5 else UnsignedSize(x) }

  function DeclSize(o: Options, types: seq<FuncType>, d: BlockDecl): nat {
    if Inline(d.sig) then 1
    else if o.relocatable then 5
    else SignedSize(Twos(TWO_TO_31, Index32(DeclIndex(types, d))))
  }

  function VarSize(v: Var): nat { UnsignedSize(Depth(v)) }

  function VarsSize(vs: seq<Var>): nat { if vs == [] then 0 else VarSize(vs[0]) + VarsSize(vs[1..]) }

  function MemorySize(memidx: nat, offset: nat): nat {
    1 + (if memidx == 0 then 1 else 1 + UnsignedSize(memidx)) + UnsignedSize(offset)
  }

  function InstrSize(o: Options, i: Instr): nat {
    match i
    case Const(v) =>
      1 + (match v.ty
           case I32 => SignedSize(Twos(TWO_TO_31, v.bits))
           case I64 => SignedSize(Twos(TWO_TO_63, v.bits))
           case F32 => 4
           case F64 => 8)
    case LocalGet(x) => 1 + UnsignedSize(Index32(x))
    case LocalSet(x) => 1 + UnsignedSize(Index32(x))
    case LocalTee(x) => 1 + UnsignedSize(Index32(x))
    case GlobalGet(x) => 1 + IndexSize(o, Index32(x))
    case GlobalSet(x) => 1 + IndexSize(o, Index32(x))
    case Call(x) => 1 + IndexSize(o, Index32(x))
    case Load(_, _, k, offset) => MemorySize(k, offset)
    case Store(_, _, k, offset) => MemorySize(k, offset)
    case _ => 1
  }

  function ListSize(o: Options, types: seq<FuncType>, es: seq<Expr>): nat
    decreases es, 0
  {
    if es == [] then 0 else ExprSize(o, types, es[0]) + ListSize(o, types, es[1..])
  }

  /** An opcode, its immediates, and what is nested between it and its end. */
  function ExprSize(o: Options, types: seq<FuncType>, e: Expr): nat
    decreases e, 1
  {
    match e
    case Plain(i) => InstrSize(o, i)
    case Br(v) => 1 + VarSize(v)
    case BrIf(v) => 1 + VarSize(v)
    case BrTable(vs, d) => 1 + UnsignedSize(|vs|) + VarsSize(vs) + VarSize(d)
    case Throw(t) => 1 + UnsignedSize(t)
    case Rethrow(v) => 1 + VarSize(v)
    case Block(_, d, b) => 1 + DeclSize(o, types, d) + ListSize(o, types, b) + 1
    case Loop(_, d, b) => 1 + DeclSize(o, types, d) + ListSize(o, types, b) + 1
    case If(_, d, a, b) =>
      1 + DeclSize(o, types, d) + ListSize(o, types, a) + (if b == [] then 0 else 1 + ListSize(o, types, b)) + 1
    case Try(_, d, b, kind, cs, v) =>
      1 + DeclSize(o, types, d) + ListSize(o, types, b)
      + (match kind
         case PlainTry => 1
         case CatchTry => ClausesSize(o, types, cs) + 1
         case DelegateTry => 1 + VarSize(v))
    case _ => 1
  }

  function TagSize(tag: Option<nat>): nat { 1 + if tag.Some? then UnsignedSize(tag.value) else 0 }

  function ClausesSize(o: Options, types: seq<FuncType>, cs: seq<Catch>): nat
    decreases cs, 0
  {
    if cs == [] then 0
    else TagSize(cs[0].tag) + ListSize(o, types, cs[0].exprs) + ClausesSize(o, types, cs[1..])
  }

  // ----- sites -----

  /** An index that is relocated, and the offset of its bytes. */
  datatype Site = Site(kind: RelocType, offset: nat, index: u32)

  function Here(o: Options, kind: RelocType, at: nat, x: nat): seq<Site> {
    if o.relocatable then [Site(kind, at, Index32(x))] else []
  }

  /** One for a call, one for each access to a global. */
  function InstrSites(o: Options, i: Instr, at: nat): seq<Site> {
    match i
    case Call(x) => Here(o, FuncIndexLEB, at + 1, x)
    case GlobalGet(x) => Here(o, GlobalIndexLEB, at + 1, x)
    case GlobalSet(x) => Here(o, GlobalIndexLEB, at + 1, x)
    case _ => []
  }

  /** One for a signature that is not inline. */
  function DeclSites(o: Options, types: seq<FuncType>, d: BlockDecl, at: nat): seq<Site> {
    if Inline(d.sig) then [] else Here(o, TypeIndexLEB, at, DeclIndex(types, d))
  }

  /** Those of a list whose bytes begin at `at`. */
  function ListSites(o: Options, types: seq<FuncType>, es: seq<Expr>, at: nat): seq<Site>
    decreases es, 0
  {
    if es == [] then []
    else ExprSites(o, types, es[0], at) + ListSites(o, types, es[1..], at + ExprSize(o, types, es[0]))
  }

  function ExprSites(o: Options, types: seq<FuncType>, e: Expr, at: nat): seq<Site>
    decreases e, 1
  {
    match e
    case Plain(i) => InstrSites(o, i, at)
    case Block(_, d, b) => DeclSites(o, types, d, at + 1) + ListSites(o, types, b, at + 1 + DeclSize(o, types, d))
    case Loop(_, d, b) => DeclSites(o, types, d, at + 1) + ListSites(o, types, b, at + 1 + DeclSize(o, types, d))
    case If(_, d, a, b) =>
      var inside := at + 1 + DeclSize(o, types, d);
      DeclSites(o, types, d, at + 1) + ListSites(o, types, a, inside)
          + ListSites(o, types, b, inside + ListSize(o, types, a) + 1)
    case Try(_, d, b, kind, cs, _) =>
      var inside := at + 1 + DeclSize(o, types, d);
      DeclSites(o, types, d, at + 1) + ListSites(o, types, b, inside)
          + if kind == CatchTry then ClausesSites(o, types, cs, inside + ListSize(o, types, b)) else []
    case _ => []
  }

  function ClausesSites(o: Options, types: seq<FuncType>, cs: seq<Catch>, at: nat): seq<Site>
    decreases cs, 0
  {
    if cs == [] then []
    else
      var inside := at + TagSize(cs[0].tag);
      ListSites(o, types, cs[0].exprs, inside)
          + ClausesSites(o, types, cs[1..], inside + ListSize(o, types, cs[0].exprs))
  }

  /** The relocations for sites: one for each index that has a symbol. */
  function Relocated(o: Options, sites: seq<Site>): seq<Reloc> {
    if sites == [] then []
    else
      var s := sites[0];
      (match o.symbols(s.kind, s.index)
       case None => []
       case Some(symbol) => [Reloc(s.kind, s.offset, symbol)]) + Relocated(o, sites[1..])
  }

  // ----- content has a size and sites -----

  function SitesIn(o: Options, cs: seq<Chunk>, at: nat): seq<Site> {
    if cs == [] then [] else SiteOf(o, cs[0], at) + SitesIn(o, cs[1..], at + |ChunkBytes(o, cs[0])|)
  }

  function SiteOf(o: Options, c: Chunk, at: nat): seq<Site> {
    if c.Indexed? && Relocates(o, c.kind) then [Site(c.kind, at, c.index)] else []
  }

  /** Content of that size with these sites. */
  ghost predicate Measured(o: Options, cs: seq<Chunk>, at: nat, size: nat, sites: seq<Site>) {
    |Bytes(o, cs)| == size && SitesIn(o, cs, at) == sites
  }

  lemma {:induction false} MeasuredJoin(o: Options, a: seq<Chunk>, b: seq<Chunk>, at: nat, n: nat, k: nat,
      s: seq<Site>, t: seq<Site>)
    requires Measured(o, a, at, n, s) && Measured(o, b, at + n, k, t)
    ensures Measured(o, a + b, at, n + k, s + t)
    decreases |a|
  {
    if a == [] {
      assert a + b == b && [] + t == t;
    } else {
      hide ChunkBytes, SiteOf;
      assert (a + b)[1..] == a[1..] + b;
      var m := |ChunkBytes(o, a[0])|;
      var (x, y) := (SiteOf(o, a[0], at), SitesIn(o, a[1..], at + m));
      MeasuredJoin(o, a[1..], b, at + m, n - m, k, y, t);
      assert x + (y + t) == x + y + t;
    }
  }

  lemma MeasuredNone(o: Options, at: nat)
    ensures Measured(o, [], at, 0, [])
  {}

  lemma MeasuredOne(o: Options, c: Chunk, at: nat)
    ensures Measured(o, [c], at, |ChunkBytes(o, c)|, SiteOf(o, c, at))
  {
    OneChunk(o, c, at);
    assert [c][1..] == [];
    assert SitesIn(o, [c][1..], at + |ChunkBytes(o, c)|) == [];
    assert SiteOf(o, c, at) + [] == SiteOf(o, c, at);
  }

  lemma MeasuredTwo(o: Options, a: Chunk, b: Chunk, at: nat)
    ensures var n := |ChunkBytes(o, a)|;
            Measured(o, [a, b], at, n + |ChunkBytes(o, b)|, SiteOf(o, a, at) + SiteOf(o, b, at + n))
  {
    hide Measured, ChunkBytes, SiteOf;
    MeasuredOne(o, a, at);
    MeasuredOne(o, b, at + |ChunkBytes(o, a)|);
    MeasuredJoin(o, [a], [b], at, |ChunkBytes(o, a)|, |ChunkBytes(o, b)|, SiteOf(o, a, at),
        SiteOf(o, b, at + |ChunkBytes(o, a)|));
    assert [a] + [b] == [a, b];
  }

  lemma RawTwo(o: Options, a: seq<byte>, b: seq<byte>, at: nat)
    ensures Measured(o, [Raw(a), Raw(b)], at, |a| + |b|, [])
  {
    hide Measured;
    MeasuredTwo(o, Raw(a), Raw(b), at);
    assert SiteOf(o, Raw(a), at) + SiteOf(o, Raw(b), at + |a|) == [];
  }

  lemma OpIndexed(o: Options, op: Opcode, kind: RelocType, x: u32, at: nat)
    ensures Measured(o, [Opcode1(op), Indexed(kind, x)], at, 1 + |IndexBytes(o, kind, x)|,
        SiteOf(o, Indexed(kind, x), at + 1))
  {
    hide Measured, IndexBytes;
    MeasuredTwo(o, Opcode1(op), Indexed(kind, x), at);
    assert SiteOf(o, Opcode1(op), at) + SiteOf(o, Indexed(kind, x), at + 1) == SiteOf(o, Indexed(kind, x), at + 1);
  }

  lemma {:induction false} UnsignedSized(x: nat)
    ensures |EncodeU(x)| == UnsignedSize(x)
  {
    if x >= 128 { UnsignedSized(x / 128); }
  }

  lemma {:induction false} SignedSized(x: int)
    ensures |EncodeS(x)| == SignedSize(x)
    decreases if x < 0 then -x else x
  {
    if !LastS(x) { SignedSized(x / 128); }
  }

  lemma OpSized(o: Options, op: Opcode, at: nat)
    ensures |ChunkBytes(o, Opcode1(op))| == 1 && SiteOf(o, Opcode1(op), at) == []
    ensures Measured(o, [Opcode1(op)], at, 1, [])
  {
    MeasuredOne(o, Opcode1(op), at);
  }

  lemma NumberSized(o: Options, x: nat, at: nat)
    ensures |ChunkBytes(o, Raw(EncodeU(x)))| == UnsignedSize(x) && SiteOf(o, Raw(EncodeU(x)), at) == []
    ensures Measured(o, [Raw(EncodeU(x))], at, UnsignedSize(x), [])
  {
    UnsignedSized(x);
    MeasuredOne(o, Raw(EncodeU(x)), at);
  }

  lemma InstrMeasured(o: Options, i: Instr, at: nat)
    ensures Measured(o, EmitInstr(i), at, InstrSize(o, i), InstrSites(o, i, at))
  {
    hide Measured, EncodeU, EncodeS, LeBytes, FixedU32;
    match i
    case Const(v) =>
      SignedSized(Twos(TWO_TO_31, v.bits));
      SignedSized(Twos(TWO_TO_63, v.bits));
      RawTwo(o, [Code(ConstOp(v.ty))], EmitConst(v)[1].bytes, at);
    case LocalGet(x) => IndexMeasured(o, LocalGetForm, Index32(x), at);
    case LocalSet(x) => IndexMeasured(o, LocalSetForm, Index32(x), at);
    case LocalTee(x) => IndexMeasured(o, LocalTeeForm, Index32(x), at);
    case GlobalGet(x) => IndexMeasured(o, GlobalGetForm, Index32(x), at);
    case GlobalSet(x) => IndexMeasured(o, GlobalSetForm, Index32(x), at);
    case Call(x) => IndexMeasured(o, CallForm, Index32(x), at);
    case Load(acc, align, k, offset) => MemoryMeasured(o, LoadOp(acc), align, k, offset, at);
    case Store(acc, align, k, offset) => MemoryMeasured(o, StoreOp(acc), align, k, offset, at);
    case _ => OpSized(o, SimpleOp(i), at);
  }

  lemma IndexMeasured(o: Options, form: IndexForm, x: u32, at: nat)
    ensures Measured(o, EmitIndex(form, x), at,
        1 + if form in {CallForm, GlobalGetForm, GlobalSetForm} then IndexSize(o, x) else UnsignedSize(x),
        match form
        case CallForm => Here(o, FuncIndexLEB, at + 1, x)
        case GlobalGetForm => Here(o, GlobalIndexLEB, at + 1, x)
        case GlobalSetForm => Here(o, GlobalIndexLEB, at + 1, x)
        case _ => [])
  {
    hide Measured, EncodeU, FixedU32;
    UnsignedSized(x);
    match form
    case CallForm => OpIndexed(o, IndexOp(form), FuncIndexLEB, x, at);
    case GlobalGetForm => OpIndexed(o, IndexOp(form), GlobalIndexLEB, x, at);
    case GlobalSetForm => OpIndexed(o, IndexOp(form), GlobalIndexLEB, x, at);
    case _ => RawTwo(o, [Code(IndexOp(form))], EncodeU(x), at);
  }

  lemma MemoryMeasured(o: Options, op: Opcode, align: nat, memidx: nat, offset: nat, at: nat)
    ensures Measured(o, EmitMemory(op, align, memidx, offset), at, MemorySize(memidx, offset), [])
  {
    hide Measured, EncodeU;
    var (none, log2) := ([], Log2(align));
    var n := if memidx != 0 then 1 + UnsignedSize(memidx) else 1;
    OpSized(o, op, at);
    UnsignedSized(memidx);
    NumberSized(o, offset, at + 1 + n);
    assert none + none == none;
    if memidx != 0 {
      RawTwo(o, [(log2 + 64) % 256], EncodeU(memidx), at + 1);
      Parts(o, [Opcode1(op)], [Raw([(log2 + 64) % 256]), Raw(EncodeU(memidx))], [Raw(EncodeU(offset))], at, 1, n,
          UnsignedSize(offset), none, none, none);
    } else {
      MeasuredOne(o, Raw([log2 % 256]), at + 1);
      Parts(o, [Opcode1(op)], [Raw([log2 % 256])], [Raw(EncodeU(offset))], at, 1, n, UnsignedSize(offset), none, none,
          none);
    }
  }

  lemma DeclMeasured(o: Options, types: seq<FuncType>, op: Opcode, d: BlockDecl, at: nat)
    ensures Measured(o, [Opcode1(op), EmitDecl(types, d)], at, 1 + DeclSize(o, types, d),
        DeclSites(o, types, d, at + 1))
  {
    hide Measured, EncodeS, FixedS32;
    if Inline(d.sig) {
      var code := if d.sig.results == [] then VOID_CODE else TypeCode(d.sig.results[0]);
      SignedSized(code);
      RawTwo(o, [Code(op)], EncodeS(code), at);
    } else {
      var x := Index32(DeclIndex(types, d));
      SignedSized(Twos(TWO_TO_31, x));
      OpIndexed(o, op, TypeIndexLEB, x, at);
    }
  }

  lemma {:induction false} VarsMeasured(o: Options, vs: seq<Var>, at: nat)
    ensures Measured(o, EmitVars(vs), at, VarsSize(vs), [])
  {
    hide Measured, EncodeU;
    var none: seq<Site> := [];
    if vs == [] {
      MeasuredNone(o, at);
    } else {
      NumberSized(o, Depth(vs[0]), at);
      VarsMeasured(o, vs[1..], at + VarSize(vs[0]));
      MeasuredJoin(o, [EmitVar(vs[0])], EmitVars(vs[1..]), at, VarSize(vs[0]), VarsSize(vs[1..]), none, none);
      assert none + none == none;
    }
  }

  // ----- trees -----

  /** What is written for a list has the size of the list and relocates the list's sites, wherever
      it begins. */
  lemma {:induction false} ListMeasured(o: Options, types: seq<FuncType>, es: seq<Expr>, at: nat)
    ensures Measured(o, EmitList(types, es), at, ListSize(o, types, es), ListSites(o, types, es, at))
    decreases es, 0
  {
    hide Measured, EmitExpr, ExprSize, ExprSites;
    if es == [] {
      MeasuredNone(o, at);
    } else {
      var n := ExprSize(o, types, es[0]);
      ExprMeasured(o, types, es[0], at);
      ListMeasured(o, types, es[1..], at + n);
      MeasuredJoin(o, EmitExpr(types, es[0]), EmitList(types, es[1..]), at, n, ListSize(o, types, es[1..]),
          ExprSites(o, types, es[0], at), ListSites(o, types, es[1..], at + n));
    }
  }

  /** A construct: its head, what is inside, what ends it. */
  lemma Parts(o: Options, head: seq<Chunk>, inside: seq<Chunk>, tail: seq<Chunk>, at: nat, n: nat, k: nat, l: nat,
      s: seq<Site>, t: seq<Site>, u: seq<Site>)
    requires Measured(o, head, at, n, s) && Measured(o, inside, at + n, k, t) && Measured(o, tail, at + n + k, l, u)
    ensures Measured(o, head + inside + tail, at, n + k + l, s + t + u)
  {
    hide Measured;
    MeasuredJoin(o, head, inside, at, n, k, s, t);
    MeasuredJoin(o, head + inside, tail, at, n + k, l, s + t, u);
  }

  lemma {:induction false} ExprMeasured(o: Options, types: seq<FuncType>, e: Expr, at: nat)
    ensures Measured(o, EmitExpr(types, e), at, ExprSize(o, types, e), ExprSites(o, types, e, at))
    decreases e, 1
  {
    hide Measured, EmitList, EmitCatches, ListSize, ListSites, ClausesSize, ClausesSites, DeclSize, DeclSites,
        InstrSize, InstrSites, EmitInstr, EmitDecl, UnsignedSize, EncodeU, EmitVars, VarsSize;
    var none: seq<Site> := [];
    match e
    case Plain(i) => InstrMeasured(o, i, at);
    case Br(v) => OpNumber(o, BrOp, Depth(v), at);
    case BrIf(v) => OpNumber(o, BrIfOp, Depth(v), at);
    case Rethrow(v) => OpNumber(o, RethrowOp, Depth(v), at);
    case Throw(t) => OpNumber(o, ThrowOp, t, at);
    case BrTable(vs, d) =>
      var n := 1 + UnsignedSize(|vs|);
      OpNumber(o, BrTableOp, |vs|, at);
      VarsMeasured(o, vs, at + n);
      NumberSized(o, Depth(d), at + n + VarsSize(vs));
      Parts(o, [Opcode1(BrTableOp), Raw(EncodeU(|vs|))], EmitVars(vs), [EmitVar(d)], at, n, VarsSize(vs), VarSize(d),
          none, none, none);
      assert none + none == none;
    case Return => OpSized(o, ReturnOp, at);
    case Unreachable => OpSized(o, UnreachableOp, at);
    case Block(_, d, b) =>
      HeadMeasured(o, types, BlockOp, d, b, at);
      WithEnd(o, EmitHead(types, BlockOp, d, b), at, 1 + DeclSize(o, types, d) + ListSize(o, types, b),
          DeclSites(o, types, d, at + 1) + ListSites(o, types, b, at + 1 + DeclSize(o, types, d)));
    case Loop(_, d, b) =>
      HeadMeasured(o, types, LoopOp, d, b, at);
      WithEnd(o, EmitHead(types, LoopOp, d, b), at, 1 + DeclSize(o, types, d) + ListSize(o, types, b),
          DeclSites(o, types, d, at + 1) + ListSites(o, types, b, at + 1 + DeclSize(o, types, d)));
    case If(_, d, a, b) => IfMeasured(o, types, e, at);
    case Try(_, d, b, kind, cs, v) => TryMeasured(o, types, e, at);
  }

  lemma OpNumber(o: Options, op: Opcode, x: nat, at: nat)
    ensures Measured(o, [Opcode1(op), Raw(EncodeU(x))], at, 1 + UnsignedSize(x), [])
  {
    hide Measured, EncodeU;
    UnsignedSized(x);
    RawTwo(o, [Code(op)], EncodeU(x), at);
  }

  /** The opcode and signature of a construct, and its first list. */
  function EmitHead(types: seq<FuncType>, op: Opcode, d: BlockDecl, b: seq<Expr>): seq<Chunk> {
    [Opcode1(op), EmitDecl(types, d)] + EmitList(types, b)
  }

  lemma {:induction false} HeadMeasured(o: Options, types: seq<FuncType>, op: Opcode, d: BlockDecl, b: seq<Expr>,
      at: nat)
    ensures Measured(o, EmitHead(types, op, d, b), at, 1 + DeclSize(o, types, d) + ListSize(o, types, b),
        DeclSites(o, types, d, at + 1) + ListSites(o, types, b, at + 1 + DeclSize(o, types, d)))
    decreases b, 1
  {
    hide Measured, EmitList, ListSize, ListSites, DeclSize, DeclSites, EmitDecl;
    var n := 1 + DeclSize(o, types, d);
    DeclMeasured(o, types, op, d, at);
    ListMeasured(o, types, b, at + n);
    MeasuredJoin(o, [Opcode1(op), EmitDecl(types, d)], EmitList(types, b), at, n, ListSize(o, types, b),
        DeclSites(o, types, d, at + 1), ListSites(o, types, b, at + n));
  }

  lemma WithEnd(o: Options, cs: seq<Chunk>, at: nat, n: nat, s: seq<Site>)
    requires Measured(o, cs, at, n, s)
    ensures Measured(o, cs + [Opcode1(EndOp)], at, n + 1, s)
  {
    hide Measured;
    OpSized(o, EndOp, at + n);
    MeasuredJoin(o, cs, [Opcode1(EndOp)], at, n, 1, s, []);
    assert s + [] == s;
  }

  lemma {:induction false} IfMeasured(o: Options, types: seq<FuncType>, e: Expr, at: nat)
    requires e.If?
    ensures Measured(o, EmitExpr(types, e), at, ExprSize(o, types, e), ExprSites(o, types, e, at))
    decreases e, 0
  {
    hide Measured, EmitList, ListSize, ListSites, DeclSize, DeclSites, EmitDecl;
    var (d, a, b) := (e.decl, e.thn, e.els);
    var n := 1 + DeclSize(o, types, d) + ListSize(o, types, a);
    var s := DeclSites(o, types, d, at + 1) + ListSites(o, types, a, at + 1 + DeclSize(o, types, d));
    var t := ListSites(o, types, b, at + n + 1);
    var head := EmitHead(types, IfOp, d, a);
    HeadMeasured(o, types, IfOp, d, a, at);
    if b == [] {
      NoSites(o, types, at + n + 1);
      WithEnd(o, head, at, n, s);
      assert head + [] == head && s + t == s;
    } else {
      OpSized(o, ElseOp, at + n);
      ListMeasured(o, types, b, at + n + 1);
      Parts(o, head, [Opcode1(ElseOp)], EmitList(types, b), at, n, 1, ListSize(o, types, b), s, [], t);
      assert s + [] + t == s + t;
      WithEnd(o, head + [Opcode1(ElseOp)] + EmitList(types, b), at, n + 1 + ListSize(o, types, b), s + t);
      assert head + ([Opcode1(ElseOp)] + EmitList(types, b)) == head + [Opcode1(ElseOp)] + EmitList(types, b);
    }
  }

  lemma NoSites(o: Options, types: seq<FuncType>, at: nat)
    ensures ListSites(o, types, [], at) == [] && ListSize(o, types, []) == 0
  {}

  lemma {:induction false} TryMeasured(o: Options, types: seq<FuncType>, e: Expr, at: nat)
    requires e.Try?
    ensures Measured(o, EmitExpr(types, e), at, ExprSize(o, types, e), ExprSites(o, types, e, at))
    decreases e, 0
  {
    hide Measured, EmitList, EmitCatches, ListSize, ListSites, ClausesSize, ClausesSites, DeclSize, DeclSites,
        EmitDecl, EncodeU, UnsignedSize;
    var (d, b, cs) := (e.decl, e.body, e.catches);
    var n := 1 + DeclSize(o, types, d) + ListSize(o, types, b);
    var s := DeclSites(o, types, d, at + 1) + ListSites(o, types, b, at + 1 + DeclSize(o, types, d));
    var head := EmitHead(types, TryOp, d, b);
    HeadMeasured(o, types, TryOp, d, b, at);
    match e.kind
    case PlainTry =>
      WithEnd(o, head, at, n, s);
      assert s + [] == s;
    case CatchTry =>
      var t := ClausesSites(o, types, cs, at + n);
      ClausesMeasured(o, types, cs, at + n);
      MeasuredJoin(o, head, EmitCatches(types, cs), at, n, ClausesSize(o, types, cs), s, t);
      WithEnd(o, head + EmitCatches(types, cs), at, n + ClausesSize(o, types, cs), s + t);
      assert head + (EmitCatches(types, cs) + [Opcode1(EndOp)]) == head + EmitCatches(types, cs) + [Opcode1(EndOp)];
    case DelegateTry =>
      OpNumber(o, DelegateOp, Depth(e.delegate), at + n);
      MeasuredJoin(o, head, [Opcode1(DelegateOp), EmitVar(e.delegate)], at, n, 1 + VarSize(e.delegate), s, []);
  }

  lemma {:induction false} ClausesMeasured(o: Options, types: seq<FuncType>, cs: seq<Catch>, at: nat)
    ensures Measured(o, EmitCatches(types, cs), at, ClausesSize(o, types, cs), ClausesSites(o, types, cs, at))
    decreases cs, 0
  {
    hide Measured, EmitList, ListSize, ListSites, EmitTag, TagSize;
    if cs == [] {
      MeasuredNone(o, at);
    } else {
      var (n, k) := (TagSize(cs[0].tag), ListSize(o, types, cs[0].exprs));
      TagMeasured(o, cs[0].tag, at);
      ListMeasured(o, types, cs[0].exprs, at + n);
      ClausesMeasured(o, types, cs[1..], at + n + k);
      var (t, u) := (ListSites(o, types, cs[0].exprs, at + n), ClausesSites(o, types, cs[1..], at + n + k));
      Parts(o, EmitTag(cs[0].tag), EmitList(types, cs[0].exprs), EmitCatches(types, cs[1..]), at, n, k,
          ClausesSize(o, types, cs[1..]), [], t, u);
      assert [] + t + u == t + u;
    }
  }

  lemma TagMeasured(o: Options, tag: Option<nat>, at: nat)
    ensures Measured(o, EmitTag(tag), at, TagSize(tag), [])
  {
    hide Measured, EncodeU;
    match tag
    case None => OpSized(o, CatchAllOp, at);
    case Some(t) => OpNumber(o, CatchOp, t, at);
  }

  // ----- the relocations of a tree -----

  lemma {:induction false} RelocsOfSites(o: Options, cs: seq<Chunk>, at: nat)
    ensures RelocsAt(o, cs, at) == Relocated(o, SitesIn(o, cs, at))
    decreases |cs|
  {
    hide ChunkBytes;
    if cs != [] {
      RelocsOfSites(o, cs[1..], at + |ChunkBytes(o, cs[0])|);
      var rest := SitesIn(o, cs[1..], at + |ChunkBytes(o, cs[0])|);
      if SiteOf(o, cs[0], at) != [] {
        assert (SiteOf(o, cs[0], at) + rest)[1..] == rest;
      } else {
        assert [] + rest == rest && [] + Relocated(o, rest) == Relocated(o, rest);
      }
    }
  }

  /** The relocations of a written list are one for each of its sites with a symbol, in their order,
      and no other; and the list takes as many bytes as its size. */
  lemma TreeRelocations(o: Options, types: seq<FuncType>, es: seq<Expr>, base: nat)
    ensures RelocsAt(o, EmitList(types, es), base) == Relocated(o, ListSites(o, types, es, base))
    ensures |Bytes(o, EmitList(types, es))| == ListSize(o, types, es)
  {
    ListMeasured(o, types, es, base);
    RelocsOfSites(o, EmitList(types, es), base);
  }

  lemma {:induction false} SiteReads(o: Options, cs: seq<Chunk>, at: nat, p: seq<byte>, j: nat)
    requires Stands(p, at, Bytes(o, cs)) && j < |SitesIn(o, cs, at)|
    ensures var s := SitesIn(o, cs, at)[j];
            (if s.kind == TypeIndexLEB || s.kind == TableNumberLEB then ReadS32(p, s.offset)
             else ReadU32(p, s.offset))
                == Some(Parsed(s.index, s.offset + 5))
    decreases |cs|
  {
    hide ReadS32, ReadU32, FixedS32, FixedU32, EncodeS, EncodeU;
    var c := ChunkBytes(o, cs[0]);
    Immediates.StandsSplit(p, at, c, Bytes(o, cs[1..]));
    var first := SiteOf(o, cs[0], at);
    if j < |first| {
      if SignedKind(cs[0].kind) { FixedS32Reads(cs[0].index, p, at); } else { FixedU32Reads(cs[0].index, p, at); }
    } else {
      SiteReads(o, cs[1..], at + |c|, p, j - |first|);
    }
  }

  /** At each site of a written list the five bytes of its index are read back. */
  lemma SitesRead(o: Options, types: seq<FuncType>, es: seq<Expr>, at: nat, p: seq<byte>, j: nat)
    requires Stands(p, at, Bytes(o, EmitList(types, es))) && j < |ListSites(o, types, es, at)|
    ensures var s := ListSites(o, types, es, at)[j];
            (if s.kind == TypeIndexLEB || s.kind == TableNumberLEB then ReadS32(p, s.offset)
             else ReadU32(p, s.offset))
                == Some(Parsed(s.index, s.offset + 5))
  {
    hide Bytes, SitesIn;
    ListMeasured(o, types, es, at);
    SiteReads(o, EmitList(types, es), at, p, j);
  }

  // ----- block signatures -----

  /** A signature without parameters and with at most one result is a single byte, every other one
      the index of its type, five bytes wide if it is relocated. */
  lemma SignatureBytes(o: Options, types: seq<FuncType>, d: BlockDecl)
    ensures var bytes := ChunkBytes(o, EmitDecl(types, d));
            && (d.sig == FuncType([], []) ==> bytes == [0x40])
            && (d.sig == FuncType([], [I32]) ==> bytes == [0x7f]) && (d.sig == FuncType([], [I64]) ==> bytes == [0x7e])
            && (d.sig == FuncType([], [F32]) ==> bytes == [0x7d]) && (d.sig == FuncType([], [F64]) ==> bytes == [0x7c])
            && (d.sig.params != [] || |d.sig.results| > 1 ==>
                  var x := Index32(if d.typeIndex.Some? then d.typeIndex.value else FindType(types, d.sig));
                  bytes == if o.relocatable then FixedS32(x) else EncodeS(Twos(TWO_TO_31, x)))
  {
    hide FixedS32, FindType;
    OneByteSigned(VOID_CODE);
    OneByteSigned(TypeCode(I32));
    OneByteSigned(TypeCode(I64));
    OneByteSigned(TypeCode(F32));
    OneByteSigned(TypeCode(F64));
    hide EncodeS;
  }

  lemma OneByteSigned(x: int)
    requires -64 <= x < 64
    ensures EncodeS(x) == [x % 128]
  {}
}

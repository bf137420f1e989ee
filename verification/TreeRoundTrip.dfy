/** Reading back what the writer emits rebuilds the tree, whatever is open around it. */
module TreeRoundTrip {
  import opened Ir
  import opened Leb128
  import opened BinaryWriter
  import opened Opcodes
  import opened Immediates
  import opened TreeCodec

  // ----- editing the tree along a path -----

  lemma ListOfWith(e: Expr, slot: Slot, es: seq<Expr>)
    requires ListOf(e, slot).Some?
    ensures ListOf(WithList(e, slot, es), slot) == Some(es)
  {}

  lemma WithTwice(e: Expr, slot: Slot, a: seq<Expr>, b: seq<Expr>)
    requires ListOf(e, slot).Some?
    ensures WithList(WithList(e, slot, a), slot, b) == WithList(e, slot, b)
  {}

  lemma {:induction false} GetPut(root: seq<Expr>, path: Path, es: seq<Expr>)
    requires Get(root, path).Some?
    ensures Get(Put(root, path, es), path) == Some(es)
    decreases |path|
  {
    if path != [] {
      var sub := ListOf(Last(root), path[0]).value;
      GetPut(sub, path[1..], es);
      ListOfWith(Last(root), path[0], Put(sub, path[1..], es));
    }
  }

  lemma {:induction false} PutPut(root: seq<Expr>, path: Path, a: seq<Expr>, b: seq<Expr>)
    requires Get(root, path).Some?
    ensures Put(Put(root, path, a), path, b) == Put(root, path, b)
    decreases |path|
  {
    if path != [] {
      var e := Last(root);
      var sub := ListOf(e, path[0]).value;
      var a1 := Put(sub, path[1..], a);
      PutPut(sub, path[1..], a, b);
      ListOfWith(e, path[0], a1);
      WithTwice(e, path[0], a1, Put(sub, path[1..], b));
      assert SetLast(SetLast(root, WithList(e, path[0], a1)), WithList(e, path[0], Put(sub, path[1..], b)))
          == SetLast(root, WithList(e, path[0], Put(sub, path[1..], b)));
    }
  }

  /** One step further along the path. */
  lemma {:induction false} GetDeeper(root: seq<Expr>, path: Path, slot: Slot)
    requires Get(root, path).Some? && Get(root, path).value != []
    ensures Get(root, path + [slot]) == ListOf(Last(Get(root, path).value), slot)
    decreases |path|
  {
    if path == [] {
      assert (path + [slot])[1..] == [];
      var sub := ListOf(Last(root), slot);
      if sub.Some? { assert Get(sub.value, []) == sub; }
    } else {
      assert (path + [slot])[1..] == path[1..] + [slot];
      GetDeeper(ListOf(Last(root), path[0]).value, path[1..], slot);
    }
  }

  lemma {:induction false} PutDeeper(root: seq<Expr>, path: Path, slot: Slot, es: seq<Expr>)
    requires Get(root, path).Some? && Get(root, path).value != [] && ListOf(Last(Get(root, path).value), slot).Some?
    ensures var l := Get(root, path).value;
            Put(root, path + [slot], es) == Put(root, path, SetLast(l, WithList(Last(l), slot, es)))
    decreases |path|
  {
    if path == [] {
      assert (path + [slot])[1..] == [];
      var sub := ListOf(Last(root), slot).value;
      assert Put(sub, [], es) == es;
    } else {
      assert (path + [slot])[1..] == path[1..] + [slot];
      PutDeeper(ListOf(Last(root), path[0]).value, path[1..], slot, es);
    }
  }

  // ----- the trees that come back -----

  /** What reading makes of a block signature. */
  function NormalDecl(types: seq<FuncType>, d: BlockDecl): BlockDecl {
    if Inline(d.sig) then BlockDecl(d.sig, None) else BlockDecl(d.sig, Some(DeclIndex(types, d)))
  }

  function Normal(types: seq<FuncType>, es: seq<Expr>): seq<Expr>
    decreases es, 0
  {
    if es == [] then [] else [NormalExpr(types, es[0])] + Normal(types, es[1..])
  }

  function NormalExpr(types: seq<FuncType>, e: Expr): Expr
    decreases e, 1
  {
    match e
    case Block(_, d, b) => Block("", NormalDecl(types, d), Normal(types, b))
    case Loop(_, d, b) => Loop("", NormalDecl(types, d), Normal(types, b))
    case If(_, d, a, b) => If("", NormalDecl(types, d), Normal(types, a), Normal(types, b))
    case Try(_, d, b, kind, cs, v) => Try("", NormalDecl(types, d), Normal(types, b), kind, NormalCatches(types, cs), v)
    case _ => e
  }

  function NormalCatches(types: seq<FuncType>, cs: seq<Catch>): seq<Catch>
    decreases cs, 0
  {
    if cs == [] then [] else [Catch(cs[0].tag, Normal(types, cs[0].exprs))] + NormalCatches(types, cs[1..])
  }

  /** A signature the module has a type for, if it needs one. */
  predicate DeclOk(types: seq<FuncType>, d: BlockDecl) {
    Inline(d.sig) || (DeclIndex(types, d) < |types| && DeclIndex(types, d) < TWO_TO_31
        && types[DeclIndex(types, d)] == d.sig)
  }

  predicate VarOk(v: Var) { v.Index? && v.depth < TWO_TO_32 }

  predicate WellFormed(r: Reader, es: seq<Expr>)
    decreases es, 0
  {
    es == [] || (WellFormedExpr(r, es[0]) && WellFormed(r, es[1..]))
  }

  /** Index-form variables, encodable instructions, known signatures, well-formed tries. */
  predicate WellFormedExpr(r: Reader, e: Expr)
    decreases e, 1
  {
    match e
    case Plain(i) => Encodable(r.features, i)
    case Br(v) => VarOk(v)
    case BrIf(v) => VarOk(v)
    case BrTable(vs, d) => |vs| < TWO_TO_32 && VarOk(d) && forall v | v in vs :: VarOk(v)
    case Throw(t) => t < TWO_TO_32
    case Rethrow(v) => VarOk(v)
    case Block(_, d, b) => DeclOk(r.types, d) && WellFormed(r, b)
    case Loop(_, d, b) => DeclOk(r.types, d) && WellFormed(r, b)
    case If(_, d, a, b) => DeclOk(r.types, d) && WellFormed(r, a) && WellFormed(r, b)
    case Try(_, d, b, kind, cs, v) =>
      && DeclOk(r.types, d) && WellFormed(r, b) && VarOk(v)
      && (kind != DelegateTry ==> v == Index(0))
      && (if kind == CatchTry then cs != [] && WellFormedCatches(r, cs) else cs == [])
    case _ => true
  }

  /** No catch_all directly after another. */
  predicate WellFormedCatches(r: Reader, cs: seq<Catch>)
    decreases cs, 0
  {
    cs == [] ||
    (WellFormed(r, cs[0].exprs) && (cs[0].tag.Some? ==> cs[0].tag.value < TWO_TO_32)
     && (|cs| > 1 && cs[0].tag == None ==> cs[1].tag.Some?)
     && WellFormedCatches(r, cs[1..]))
  }

  function Max(a: nat, b: nat): nat { if a < b then b else a }

  /** How deeply blocks nest. */
  function Nesting(es: seq<Expr>): nat
    decreases es, 0
  {
    if es == [] then 0 else Max(NestingOf(es[0]), Nesting(es[1..]))
  }

  function NestingOf(e: Expr): nat
    decreases e, 1
  {
    match e
    case Block(_, _, b) => 1 + Nesting(b)
    case Loop(_, _, b) => 1 + Nesting(b)
    case If(_, _, a, b) => 1 + Max(Nesting(a), Nesting(b))
    case Try(_, _, b, _, cs, _) => 1 + Max(Nesting(b), NestingIn(cs))
    case _ => 0
  }

  function NestingIn(cs: seq<Catch>): nat
    decreases cs, 0
  {
    if cs == [] then 0 else Max(Nesting(cs[0].exprs), NestingIn(cs[1..]))
  }

  // ----- single steps -----

  /** The reader is in front of these bytes, with a list to append to. */
  ghost predicate Facing(r: Reader, p: seq<byte>, end: nat, st: State, bytes: seq<byte>) {
    && st.labels != [] && Get(st.root, PathOf(st.labels)).Some?
    && Stands(p, st.offset, bytes) && st.offset + |bytes| <= end <= |p|
  }

  /** The list under construction. */
  function Current(st: State): seq<Expr> {
    var l := Get(st.root, PathOf(st.labels)); if l.Some? then l.value else []
  }

  function WithCurrent(st: State, offset: nat, l: seq<Expr>): State {
    st.(offset := offset, root := Put(st.root, PathOf(st.labels), l))
  }

  lemma CurrentWith(st: State, offset: nat, l: seq<Expr>)
    requires Get(st.root, PathOf(st.labels)).Some?
    ensures var st1 := WithCurrent(st, offset, l); Get(st1.root, PathOf(st1.labels)) == Some(l) && Current(st1) == l
    ensures forall o1, l1 :: WithCurrent(WithCurrent(st, offset, l), o1, l1) == WithCurrent(st, o1, l1)
  {
    GetPut(st.root, PathOf(st.labels), l);
    forall o1: nat, l1 ensures WithCurrent(WithCurrent(st, offset, l), o1, l1) == WithCurrent(st, o1, l1) {
      PutPut(st.root, PathOf(st.labels), l, l1);
    }
  }

  /** One turn of the loop on an opcode of the set, given what it does. */
  lemma RunStep(r: Reader, p: seq<byte>, end: nat, st: State, op: Opcode, st1: State)
    requires st.offset < end <= |p| && FromCode(p[st.offset]) == Some(op)
    requires StepOp(r, p, st.(offset := st.offset + 1), op) == Ok(st1) && st.offset < st1.offset <= |p|
    ensures Run(r, p, end, st) == Run(r, p, end, st1)
  {
    hide FromCode, StepOp;
  }

  /** Expressions that are only appended. */
  lemma RunAppend(r: Reader, p: seq<byte>, end: nat, st: State, op: Opcode, e: Expr, next: nat)
    requires st.labels != [] && Get(st.root, PathOf(st.labels)).Some?
    requires st.offset < end <= |p| && FromCode(p[st.offset]) == Some(op) && st.offset < next <= |p|
    requires StepOp(r, p, st.(offset := st.offset + 1), op) == AppendExpr(st.(offset := next), e)
    ensures Run(r, p, end, st) == Run(r, p, end, WithCurrent(st, next, Current(st) + [e]))
  {
    hide FromCode, StepOp, Run;
    RunStep(r, p, end, st, op, WithCurrent(st, next, Current(st) + [e]));
  }

  lemma VarReads(o: Options, v: Var, p: seq<byte>, i: nat)
    requires VarOk(v) && Stands(p, i, ChunkBytes(o, EmitVar(v)))
    ensures ReadIndex(p, i) == Some((v.depth, i + |ChunkBytes(o, EmitVar(v))|))
        && ChunkBytes(o, EmitVar(v)) == EncodeU(v.depth)
  {
    hide ReadU32, EncodeU, Stands;
    RoundTripU32(v.depth, p, i);
  }

  lemma NumberReads(x: nat, p: seq<byte>, i: nat)
    requires x < TWO_TO_32 && Stands(p, i, EncodeU(x))
    ensures ReadIndex(p, i) == Some((x, i + |EncodeU(x)|))
  {
    hide ReadU32, EncodeU, Stands;
    RoundTripU32(x, p, i);
  }

  lemma {:induction false} PutSame(root: seq<Expr>, path: Path)
    requires Get(root, path).Some?
    ensures Put(root, path, Get(root, path).value) == root
    decreases |path|
  {
    if path != [] {
      var e := Last(root);
      PutSame(ListOf(e, path[0]).value, path[1..]);
      WithSame(e, path[0]);
      assert SetLast(root, e) == root;
    }
  }

  lemma WithSame(e: Expr, slot: Slot)
    requires ListOf(e, slot).Some?
    ensures WithList(e, slot, ListOf(e, slot).value) == e
  {
    if slot == CatchSlot { assert SetLast(e.catches, Last(e.catches)) == e.catches; }
  }

  // ----- an open block -----

  /** The state inside a block opened in `st`, whose expression is so far `e`. */
  function Building(st: State, offset: nat, op: Opcode, top: Label, e: Expr): State {
    State(offset, st.nested + [op], st.labels + [top], Put(st.root, PathOf(st.labels), Current(st) + [e]))
  }

  lemma BuildingList(st: State, offset: nat, op: Opcode, top: Label, e: Expr)
    requires st.labels != [] && Get(st.root, PathOf(st.labels)).Some? && ListOf(e, top.slot).Some?
    ensures var b := Building(st, offset, op, top, e);
            && b.offset == offset && |b.labels| == |st.labels| + 1
                && Get(b.root, PathOf(b.labels)) == ListOf(e, top.slot)
            && ParentList(b) == Some(Current(st) + [e]) && TopLabelExpr(b) == None
            && forall o1: nat, es: seq<Expr> :: WithCurrent(b, o1, es) == Building(st, o1, op, top,
                WithList(e, top.slot, es))
  {
    var b := Building(st, offset, op, top, e);
    var path := PathOf(st.labels);
    var l := Current(st) + [e];
    assert b.labels[..|b.labels| - 1] == st.labels;
    assert PathOf(b.labels) == path + [top.slot];
    GetPut(st.root, path, l);
    GetDeeper(b.root, path, top.slot);
    forall o1: nat, es: seq<Expr> ensures WithCurrent(b, o1, es)
        == Building(st, o1, op, top, WithList(e, top.slot, es)) {
      PutDeeper(b.root, path, top.slot, es);
      PutPut(st.root, path, l, SetLast(l, WithList(e, top.slot, es)));
      assert SetLast(l, WithList(e, top.slot, es)) == Current(st) + [WithList(e, top.slot, es)];
    }
  }

  /** The opening of a block. */
  lemma RunOpen(r: Reader, p: seq<byte>, end: nat, st: State, op: Opcode, top: Label, e: Expr, d: BlockDecl, next: nat)
    requires st.labels != [] && Get(st.root, PathOf(st.labels)).Some? && |st.labels| < MAX_NESTING_DEPTH
    requires st.offset < end <= |p| && FromCode(p[st.offset]) == Some(op) && st.offset < next <= |p|
    requires ReadBlockType(r.types, p, st.offset + 1) == Some((d, next))
    requires (op, top, e) in {
               (BlockOp, Label(BlockLabel, BodySlot), Block("", d, [])),
                   (LoopOp, Label(LoopLabel, BodySlot), Loop("", d, [])),
               (IfOp, Label(IfLabel, ThenSlot), If("", d, [], [])),
                   (TryOp, Label(TryLabel, BodySlot), Try("", d, [], PlainTry, [], Index(0)))}
    ensures Run(r, p, end, st) == Run(r, p, end, Building(st, next, op, top, e))
  {
    hide FromCode, Run, ReadBlockType, Get, Put, PathOf;
    RunStep(r, p, end, st, op, Building(st, next, op, top, e));
  }

  /** The END of a block. */
  lemma RunEnd(r: Reader, p: seq<byte>, end: nat, st: State, offset: nat, op: Opcode, top: Label, e: Expr)
    requires st.labels != [] && Get(st.root, PathOf(st.labels)).Some? && ListOf(e, top.slot).Some?
    requires offset < end <= |p| && FromCode(p[offset]) == Some(EndOp)
    ensures Run(r, p, end, Building(st, offset, op, top, e))
        == Run(r, p, end, WithCurrent(st, offset + 1, Current(st) + [e]))
  {
    hide FromCode, Run, Get, Put, PathOf, ListOf;
    var b := Building(st, offset, op, top, e);
    var b1 := Building(st, offset + 1, op, top, e);
    BuildingList(st, offset + 1, op, top, e);
    assert b1.labels[..|b1.labels| - 1] == st.labels && b1.nested[..|b1.nested| - 1] == st.nested;
    assert StepOp(r, p, b1, EndOp) == Ok(WithCurrent(st, offset + 1, Current(st) + [e]));
    RunStep(r, p, end, b, EndOp, WithCurrent(st, offset + 1, Current(st) + [e]));
  }

  lemma DeclReads(o: Options, types: seq<FuncType>, d: BlockDecl, p: seq<byte>, i: nat)
    requires DeclOk(types, d) && Stands(p, i, ChunkBytes(o, EmitDecl(types, d)))
    ensures ReadBlockType(types, p, i) == Some((NormalDecl(types, d), i + |ChunkBytes(o, EmitDecl(types, d))|))
    ensures |ChunkBytes(o, EmitDecl(types, d))| >= 1 && i + |ChunkBytes(o, EmitDecl(types, d))| <= |p|
  {
    hide ReadS32, EncodeS, IndexBytes;
    if Inline(d.sig) {
      var code := if d.sig.results == [] then VOID_CODE else TypeCode(d.sig.results[0]);
      assert d.sig.results == [] || d.sig.results == [d.sig.results[0]];
      var pattern := code + TWO_TO_32;
      assert Twos(TWO_TO_31, pattern) == code;
      RoundTripS32(pattern, p, i);
    } else {
      IndexReads(o, TypeIndexLEB, DeclIndex(types, d), p, i);
      IndexNotEmpty(o, DeclIndex(types, d));
    }
  }

  lemma IndexNotEmpty(o: Options, x: u32)
    ensures |IndexBytes(o, TypeIndexLEB, x)| >= 1
  {
    hide EncodeS;
  }

  /** An opcode, a block signature, and what follows. */
  lemma HeaderStands(o: Options, types: seq<FuncType>, op: Opcode, d: BlockDecl, rest: seq<Chunk>, p: seq<byte>, i: nat)
    requires Exists(op) && DeclOk(types, d) && Stands(p, i, Bytes(o, [Opcode1(op), EmitDecl(types, d)] + rest))
    ensures i < |p| && FromCode(p[i]) == Some(op)
    ensures var next := i + 1 + |ChunkBytes(o, EmitDecl(types, d))|;
            && ReadBlockType(types, p, i + 1) == Some((NormalDecl(types, d), next)) && i + 1 < next <= |p|
            && Stands(p, next, Bytes(o, rest)) && next + |Bytes(o, rest)| == i + |Bytes(o,
                [Opcode1(op), EmitDecl(types, d)] + rest)|
  {
    hide FromCode, Code, ReadBlockType, Stands, EmitDecl, DeclOk;
    var decl := EmitDecl(types, d);
    BytesJoin(o, [Opcode1(op), decl], rest);
    TwoBytes(o, Opcode1(op), decl);
    var tail := ChunkBytes(o, decl) + Bytes(o, rest);
    assert ChunkBytes(o, Opcode1(op)) + ChunkBytes(o, decl) + Bytes(o, rest) == [Code(op)] + tail;
    OpcodeFirst(op, tail, p, i);
    StandsSplit(p, i + 1, ChunkBytes(o, decl), Bytes(o, rest));
    DeclReads(o, types, d, p, i + 1);
  }

  /** A single opcode and what follows. */
  lemma OpStands(o: Options, op: Opcode, rest: seq<Chunk>, p: seq<byte>, i: nat)
    requires Exists(op) && Stands(p, i, Bytes(o, [Opcode1(op)] + rest))
    ensures i < |p| && FromCode(p[i]) == Some(op) && Stands(p, i + 1, Bytes(o, rest))
    ensures |Bytes(o, [Opcode1(op)] + rest)| == 1 + |Bytes(o, rest)| && i + 1 + |Bytes(o, rest)| <= |p|
  {
    hide FromCode, Code;
    BytesJoin(o, [Opcode1(op)], rest);
    OneChunk(o, Opcode1(op), 0);
    OpcodeFirst(op, Bytes(o, rest), p, i);
  }

  lemma Split(o: Options, a: seq<Chunk>, b: seq<Chunk>, p: seq<byte>, i: nat)
    requires Stands(p, i, Bytes(o, a + b))
    ensures Stands(p, i, Bytes(o, a)) && Stands(p, i + |Bytes(o, a)|, Bytes(o, b))
        && i + |Bytes(o, a)| + |Bytes(o, b)| <= |p|
    ensures |Bytes(o, a + b)| == |Bytes(o, a)| + |Bytes(o, b)|
  {
    BytesJoin(o, a, b);
    StandsSplit(p, i, Bytes(o, a), Bytes(o, b));
  }

  // ----- the round trip -----

  /** Running over the bytes of a list appends the list. */
  lemma {:induction false} ReadsList(r: Reader, o: Options, p: seq<byte>, end: nat, st: State, es: seq<Expr>)
    requires WellFormed(r, es) && Facing(r, p, end, st, Bytes(o, EmitList(r.types, es)))
    requires |st.labels| + Nesting(es) <= MAX_NESTING_DEPTH
    ensures Run(r, p, end, st) == Run(r, p, end, WithCurrent(st, st.offset + |Bytes(o, EmitList(r.types, es))|,
        Current(st) + Normal(r.types, es)))
    decreases es, 0
  {
    hide Run, Get, Put, PathOf, Stands, EmitExpr, NormalExpr, WellFormedExpr, NestingOf, Bytes, EmitList, Normal,
        WellFormed, Nesting;
    ListUnfold(r, es);
    if es == [] {
      NoBytes(o);
      PutSame(st.root, PathOf(st.labels));
      assert Current(st) + [] == Current(st);
    } else {
      var a, b := EmitExpr(r.types, es[0]), EmitList(r.types, es[1..]);
      Split(o, a, b, p, st.offset);
      ReadsExpr(r, o, p, end, st, es[0]);
      var mid := st.offset + |Bytes(o, a)|;
      var l1 := Current(st) + [NormalExpr(r.types, es[0])];
      var st1 := WithCurrent(st, mid, l1);
      CurrentWith(st, mid, l1);
      ReadsList(r, o, p, end, st1, es[1..]);
      assert l1 + Normal(r.types, es[1..]) == Current(st) + Normal(r.types, es);
    }
  }

  lemma ListUnfold(r: Reader, es: seq<Expr>)
    ensures es == [] ==> EmitList(r.types, es) == [] && Normal(r.types, es) == []
    ensures es != [] ==>
              && EmitList(r.types, es) == EmitExpr(r.types, es[0]) + EmitList(r.types, es[1..])
              && Normal(r.types, es) == [NormalExpr(r.types, es[0])] + Normal(r.types, es[1..])
              && (WellFormed(r, es) <==> WellFormedExpr(r, es[0]) && WellFormed(r, es[1..]))
              && Nesting(es) == Max(NestingOf(es[0]), Nesting(es[1..]))
  {
    hide EmitExpr, NormalExpr, WellFormedExpr, NestingOf;
  }

  lemma {:induction false} ReadsExpr(r: Reader, o: Options, p: seq<byte>, end: nat, st: State, e: Expr)
    requires WellFormedExpr(r, e) && Facing(r, p, end, st, Bytes(o, EmitExpr(r.types, e)))
    requires |st.labels| + NestingOf(e) <= MAX_NESTING_DEPTH
    ensures Run(r, p, end, st) == Run(r, p, end, WithCurrent(st, st.offset + |Bytes(o, EmitExpr(r.types, e))|,
        Current(st) + [NormalExpr(r.types, e)]))
    decreases e, 2
  {
    hide Run, Facing, WellFormed, WellFormedCatches, Bytes, EmitInstr, WithCurrent, Encodable;
    match e
    case Block(_, d, b) => ReadsBlock(r, o, p, end, st, e);
    case Loop(_, d, b) => ReadsBlock(r, o, p, end, st, e);
    case If(_, d, a, b) => ReadsIf(r, o, p, end, st, e);
    case Try(_, d, b, kind, cs, v) => ReadsTry(r, o, p, end, st, e);
    case Plain(i) => ReadsPlain(r, o, p, end, st, i);
    case BrTable(vs, d) => ReadsBrTable(r, o, p, end, st, vs, d);
    case Return => ReadsBare(r, o, p, end, st, e);
    case Unreachable => ReadsBare(r, o, p, end, st, e);
    case _ => ReadsIndexed(r, o, p, end, st, e);
  }

  lemma ReadsPlain(r: Reader, o: Options, p: seq<byte>, end: nat, st: State, i: Instr)
    requires Encodable(r.features, i) && Facing(r, p, end, st, Bytes(o, EmitInstr(i)))
    ensures Run(r, p, end, st) == Run(r, p, end, WithCurrent(st, st.offset + |Bytes(o, EmitInstr(i))|,
        Current(st) + [Plain(i)]))
  {
    hide Run, FromCode, ReadInstr, EmitInstr, Bytes, Encodable, Stands;
    InstrReads(o, r.features, i, p, st.offset);
    var op := FromCode(p[st.offset]).value;
    NotControl(r, op, p, st.offset + 1);
    InstrLength(o, i);
    RunAppend(r, p, end, st, op, Plain(i), st.offset + |Bytes(o, EmitInstr(i))|);
  }

  /** Opcodes with an instruction of their own are not those of blocks or branches. */
  lemma NotControl(r: Reader, op: Opcode, p: seq<byte>, i: nat)
    requires ReadInstr(r.features, op, p, i).Some?
    ensures op.SimpleOp? || op.IndexOp? || op.ConstOp? || op.LoadOp? || op.StoreOp?
  {}

  lemma InstrLength(o: Options, i: Instr)
    ensures |Bytes(o, EmitInstr(i))| >= 1
  {
    hide Code, EncodeU, EncodeS;
    var cs := EmitInstr(i);
    assert cs[0].Raw? && |cs[0].bytes| == 1;
  }

  lemma ReadsBare(r: Reader, o: Options, p: seq<byte>, end: nat, st: State, e: Expr)
    requires (e.Return? || e.Unreachable?) && Facing(r, p, end, st, Bytes(o, EmitExpr(r.types, e)))
    ensures Run(r, p, end, st) == Run(r, p, end, WithCurrent(st, st.offset + |Bytes(o, EmitExpr(r.types, e))|,
        Current(st) + [e]))
  {
    hide Run, FromCode, Code;
    var op := if e.Return? then ReturnOp else UnreachableOp;
    assert [Opcode1(op)] + [] == [Opcode1(op)];
    OpStands(o, op, [], p, st.offset);
    RunAppend(r, p, end, st, op, e, st.offset + 1);
  }

  /** Branches and throws: an opcode and one index. */
  lemma ReadsIndexed(r: Reader, o: Options, p: seq<byte>, end: nat, st: State, e: Expr)
    requires (e.Br? || e.BrIf? || e.Throw? || e.Rethrow?) && WellFormedExpr(r, e)
        && Facing(r, p, end, st, Bytes(o, EmitExpr(r.types, e)))
    ensures Run(r, p, end, st) == Run(r, p, end, WithCurrent(st, st.offset + |Bytes(o, EmitExpr(r.types, e))|,
        Current(st) + [e]))
  {
    hide Run, FromCode, Code, Stands, ReadIndex, EncodeU, Bytes, Get, Put, PathOf, AppendExpr;
    var op := if e.Br? then BrOp else if e.BrIf? then BrIfOp else if e.Throw? then ThrowOp else RethrowOp;
    var x := if e.Throw? then e.tag else e.target.depth;
    var c := Raw(EncodeU(x));
    assert EmitExpr(r.types, e) == [Opcode1(op), c];
    assert [Opcode1(op), c] == [Opcode1(op)] + [c];
    OpStands(o, op, [c], p, st.offset);
    OneChunk(o, c, 0);
    NumberReads(x, p, st.offset + 1);
    RunAppend(r, p, end, st, op, e, st.offset + 1 + |EncodeU(x)|);
  }

  lemma {:induction false} VarsRead(o: Options, vs: seq<Var>, p: seq<byte>, i: nat)
    requires (forall v | v in vs :: VarOk(v)) && Stands(p, i, Bytes(o, EmitVars(vs)))
    ensures ReadIndices(p, i, |vs|) == Some((vs, i + |Bytes(o, EmitVars(vs))|)) && |Bytes(o, EmitVars(vs))| >= |vs|
    decreases |vs|
  {
    hide ReadIndex, Stands, EmitVar, Bytes, ChunkBytes;
    NoBytes(o);
    if vs != [] {
      var c := EmitVar(vs[0]);
      Split(o, [c], EmitVars(vs[1..]), p, i);
      OneChunk(o, c, 0);
      VarReads(o, vs[0], p, i);
      VarsRead(o, vs[1..], p, i + |ChunkBytes(o, c)|);
      assert vs[0] == Index(vs[0].depth) && [vs[0]] + vs[1..] == vs;
    }
  }

  lemma ReadsBrTable(r: Reader, o: Options, p: seq<byte>, end: nat, st: State, vs: seq<Var>, d: Var)
    requires WellFormedExpr(r, BrTable(vs, d)) && Facing(r, p, end, st, Bytes(o, EmitExpr(r.types, BrTable(vs, d))))
    ensures Run(r, p, end, st) == Run(r, p, end,
        WithCurrent(st, st.offset + |Bytes(o, EmitExpr(r.types, BrTable(vs, d)))|, Current(st) + [BrTable(vs, d)]))
  {
    hide Run, FromCode, Code, Stands, ReadIndex, ReadIndices, EncodeU, Get, Put, PathOf, AppendExpr, EmitVars,
        EmitVar, Bytes;
    var n := Raw(EncodeU(|vs|));
    var rest := [n] + EmitVars(vs) + [EmitVar(d)];
    assert EmitExpr(r.types, BrTable(vs, d)) == [Opcode1(BrTableOp)] + rest;
    OpStands(o, BrTableOp, rest, p, st.offset);
    var i := st.offset + 1;
    Split(o, [n] + EmitVars(vs), [EmitVar(d)], p, i);
    Split(o, [n], EmitVars(vs), p, i);
    OneChunk(o, n, 0);
    OneChunk(o, EmitVar(d), 0);
    NumberReads(|vs|, p, i);
    var j := i + |EncodeU(|vs|)|;
    VarsRead(o, vs, p, j);
    VarReads(o, d, p, j + |Bytes(o, EmitVars(vs))|);
    RunAppend(r, p, end, st, BrTableOp, BrTable(vs, d), i + |Bytes(o, rest)|);
  }

  lemma {:induction false} ReadsBlock(r: Reader, o: Options, p: seq<byte>, end: nat, st: State, e: Expr)
    requires (e.Block? || e.Loop?) && WellFormedExpr(r, e) && Facing(r, p, end, st, Bytes(o, EmitExpr(r.types, e)))
    requires |st.labels| + NestingOf(e) <= MAX_NESTING_DEPTH
    ensures Run(r, p, end, st) == Run(r, p, end, WithCurrent(st, st.offset + |Bytes(o, EmitExpr(r.types, e))|,
        Current(st) + [NormalExpr(r.types, e)]))
    decreases e, 1
  {
    hide Run, FromCode, Code, Stands, Get, Put, PathOf, Bytes, EmitList, Normal, WellFormed, DeclOk, EmitDecl,
        NormalDecl, ReadBlockType, Nesting;
    var op := if e.Block? then BlockOp else LoopOp;
    var top := Label(if e.Block? then BlockLabel else LoopLabel, BodySlot);
    var d := NormalDecl(r.types, e.decl);
    var e0 := if e.Block? then Block("", d, []) else Loop("", d, []);
    var e1 := NormalExpr(r.types, e);
    var body := EmitList(r.types, e.body);
    var rest := body + [Opcode1(EndOp)];
    assert EmitExpr(r.types, e) == [Opcode1(op), EmitDecl(r.types, e.decl)] + rest;
    HeaderStands(o, r.types, op, e.decl, rest, p, st.offset);
    var next := st.offset + 1 + |ChunkBytes(o, EmitDecl(r.types, e.decl))|;
    RunOpen(r, p, end, st, op, top, e0, d, next);
    Split(o, body, [Opcode1(EndOp)], p, next);
    assert [Opcode1(EndOp)] + [] == [Opcode1(EndOp)];
    OpStands(o, EndOp, [], p, next + |Bytes(o, body)|);
    NoBytes(o);
    BuildingList(st, next, op, top, e0);
    ReadsList(r, o, p, end, Building(st, next, op, top, e0), e.body);
    assert [] + Normal(r.types, e.body) == Normal(r.types, e.body);
    RunEnd(r, p, end, st, next + |Bytes(o, body)|, op, top, e1);
  }

  lemma NoBytes(o: Options)
    ensures Bytes(o, []) == []
  {}

  /** The ELSE of a conditional. */
  lemma RunElse(r: Reader, p: seq<byte>, end: nat, st: State, offset: nat, e: Expr)
    requires st.labels != [] && Get(st.root, PathOf(st.labels)).Some? && e.If?
    requires offset < end <= |p| && FromCode(p[offset]) == Some(ElseOp)
    ensures Run(r, p, end, Building(st, offset, IfOp, Label(IfLabel, ThenSlot), e))
        == Run(r, p, end, Building(st, offset + 1, IfOp, Label(ElseLabel, ElseSlot), e))
  {
    hide FromCode, Run, Get, Put, PathOf;
    var b1 := Building(st, offset + 1, IfOp, Label(IfLabel, ThenSlot), e);
    var b2 := Building(st, offset + 1, IfOp, Label(ElseLabel, ElseSlot), e);
    BuildingList(st, offset + 1, IfOp, Label(IfLabel, ThenSlot), e);
    assert SetLast(b1.labels, Label(ElseLabel, ElseSlot)) == b2.labels;
    assert StepOp(r, p, b1, ElseOp) == Ok(b2);
    RunStep(r, p, end, Building(st, offset, IfOp, Label(IfLabel, ThenSlot), e), ElseOp, b2);
  }

  lemma {:induction false} ReadsIf(r: Reader, o: Options, p: seq<byte>, end: nat, st: State, e: Expr)
    requires e.If? && WellFormedExpr(r, e) && Facing(r, p, end, st, Bytes(o, EmitExpr(r.types, e)))
    requires |st.labels| + NestingOf(e) <= MAX_NESTING_DEPTH
    ensures Run(r, p, end, st) == Run(r, p, end, WithCurrent(st, st.offset + |Bytes(o, EmitExpr(r.types, e))|,
        Current(st) + [NormalExpr(r.types, e)]))
    decreases e, 1
  {
    hide Run, FromCode, Code, Stands, Get, Put, PathOf, Bytes, EmitList, WellFormed, DeclOk, EmitDecl, NormalDecl,
        ReadBlockType, Nesting;
    var top := Label(IfLabel, ThenSlot);
    var d := NormalDecl(r.types, e.decl);
    var e0 := If("", d, [], []);
    var a, b := EmitList(r.types, e.thn), EmitList(r.types, e.els);
    var els := if e.els == [] then [] else [Opcode1(ElseOp)] + b;
    var rest := a + (els + [Opcode1(EndOp)]);
    assert EmitExpr(r.types, e) == [Opcode1(IfOp), EmitDecl(r.types, e.decl)] + rest;
    HeaderStands(o, r.types, IfOp, e.decl, rest, p, st.offset);
    var next := st.offset + 1 + |ChunkBytes(o, EmitDecl(r.types, e.decl))|;
    RunOpen(r, p, end, st, IfOp, top, e0, d, next);
    Split(o, a, els + [Opcode1(EndOp)], p, next);
    var mid := next + |Bytes(o, a)|;
    Split(o, els, [Opcode1(EndOp)], p, mid);
    assert [Opcode1(EndOp)] + [] == [Opcode1(EndOp)];
    OpStands(o, EndOp, [], p, mid + |Bytes(o, els)|);
    NoBytes(o);
    BuildingList(st, next, IfOp, top, e0);
    ReadsList(r, o, p, end, Building(st, next, IfOp, top, e0), e.thn);
    assert [] + Normal(r.types, e.thn) == Normal(r.types, e.thn);
    var e1 := If("", d, Normal(r.types, e.thn), []);
    if e.els == [] {
      NoExprs(r.types);
      RunEnd(r, p, end, st, mid, IfOp, top, e1);
    } else {
      OpStands(o, ElseOp, b, p, mid);
      RunElse(r, p, end, st, mid, e1);
      var top1 := Label(ElseLabel, ElseSlot);
      BuildingList(st, mid + 1, IfOp, top1, e1);
      ReadsList(r, o, p, end, Building(st, mid + 1, IfOp, top1, e1), e.els);
      assert [] + Normal(r.types, e.els) == Normal(r.types, e.els);
      RunEnd(r, p, end, st, mid + |Bytes(o, els)|, IfOp, top1, NormalExpr(r.types, e));
    }
  }

  lemma NoExprs(types: seq<FuncType>)
    ensures Normal(types, []) == [] && NormalCatches(types, []) == [] && EmitCatches(types, []) == []
  {}

  /** The start of a clause. */
  lemma RunCatch(r: Reader, p: seq<byte>, end: nat, st: State, offset: nat, slot: Slot, e: Expr, tag: Option<nat>,
      next: nat)
    requires st.labels != [] && Get(st.root, PathOf(st.labels)).Some? && e.Try? && ListOf(e, slot).Some?
        && e.kind != DelegateTry
    requires tag == None && e.catches != [] ==> Last(e.catches).tag.Some?
    requires offset < end <= |p| && FromCode(p[offset]) == Some(if tag == None then CatchAllOp else CatchOp)
    requires if tag == None then next == offset + 1 else ReadIndex(p, offset + 1) == Some((tag.value, next))
    requires offset < next <= |p|
    ensures Run(r, p, end, Building(st, offset, TryOp, Label(TryLabel, slot), e))
            == Run(r, p, end, Building(st, next, TryOp, Label(TryLabel, CatchSlot),
                e.(kind := CatchTry, catches := e.catches + [Catch(tag, [])])))
  {
    hide FromCode, Run, Get, Put, PathOf, ReadIndex;
    var top := Label(TryLabel, slot);
    var e1 := e.(kind := CatchTry, catches := e.catches + [Catch(tag, [])]);
    var b1 := Building(st, next, TryOp, top, e);
    var b2 := Building(st, next, TryOp, Label(TryLabel, CatchSlot), e1);
    BuildingList(st, next, TryOp, top, e);
    CatchIs(st, b1, b2, next, slot, e, tag);
    StepCatch(r, p, b1, b2, offset, tag, next);
    RunStep(r, p, end, Building(st, offset, TryOp, top, e), if tag == None then CatchAllOp else CatchOp, b2);
  }

  lemma StepCatch(r: Reader, p: seq<byte>, b1: State, b2: State, offset: nat, tag: Option<nat>, next: nat)
    requires b1.nested != [] && Last(b1.nested) == TryOp && b1.offset == next && OnCatch(b1, tag) == Ok(b2)
    requires if tag == None then next == offset + 1 else ReadIndex(p, offset + 1) == Some((tag.value, next))
    ensures StepOp(r, p, b1.(offset := offset + 1), if tag == None then CatchAllOp else CatchOp) == Ok(b2)
  {
    hide OnCatch, ReadIndex;
  }

  lemma CatchIs(st: State, b1: State, b2: State, next: nat, slot: Slot, e: Expr, tag: Option<nat>)
    requires st.labels != [] && Get(st.root, PathOf(st.labels)).Some? && e.Try? && ListOf(e, slot).Some?
        && e.kind != DelegateTry
    requires tag == None && e.catches != [] ==> Last(e.catches).tag.Some?
    requires b1 == Building(st, next, TryOp, Label(TryLabel, slot), e)
    requires b2 == Building(st, next, TryOp, Label(TryLabel, CatchSlot),
        e.(kind := CatchTry, catches := e.catches + [Catch(tag, [])]))
    ensures OnCatch(b1, tag) == Ok(b2)
  {
    hide Get, Put, PathOf, ListOf;
    BuildingList(st, next, TryOp, Label(TryLabel, slot), e);
    assert b1.labels[..|b1.labels| - 1] == st.labels;
    var l := Current(st) + [e];
    var e1 := e.(kind := CatchTry, catches := e.catches + [Catch(tag, [])]);
    assert SetLast(l, e1) == Current(st) + [e1];
    assert SetLast(b1.labels, Label(TryLabel, CatchSlot)) == b2.labels;
    PutPut(st.root, PathOf(st.labels), l, SetLast(l, e1));
  }

  /** A delegation, which also ends the try. */
  lemma RunDelegate(r: Reader, p: seq<byte>, end: nat, st: State, offset: nat, e: Expr, depth: nat, next: nat)
    requires st.labels != [] && Get(st.root, PathOf(st.labels)).Some? && e.Try? && e.kind != CatchTry
    requires offset < end <= |p| && FromCode(p[offset]) == Some(DelegateOp)
        && ReadIndex(p, offset + 1) == Some((depth, next)) && offset < next <= |p|
    ensures Run(r, p, end, Building(st, offset, TryOp, Label(TryLabel, BodySlot), e))
            == Run(r, p, end, WithCurrent(st, next, Current(st) + [e.(kind := DelegateTry, delegate := Index(depth))]))
  {
    hide FromCode, Run, Get, Put, PathOf, ReadIndex;
    var top := Label(TryLabel, BodySlot);
    var b1 := Building(st, next, TryOp, top, e);
    var done := WithCurrent(st, next, Current(st) + [e.(kind := DelegateTry, delegate := Index(depth))]);
    BuildingList(st, next, TryOp, top, e);
    DelegateIs(st, b1, next, e, depth);
    assert Building(st, offset + 1, TryOp, top, e).(offset := next, nested := st.nested) == b1.(nested := st.nested);
    assert b1.nested[..|b1.nested| - 1] == st.nested && Last(b1.nested) == TryOp;
    assert StepOp(r, p, b1.(offset := offset + 1), DelegateOp) == Ok(done);
    RunStep(r, p, end, Building(st, offset, TryOp, top, e), DelegateOp, done);
  }

  lemma DelegateIs(st: State, b1: State, next: nat, e: Expr, depth: nat)
    requires st.labels != [] && Get(st.root, PathOf(st.labels)).Some? && e.Try? && e.kind != CatchTry
    requires b1 == Building(st, next, TryOp, Label(TryLabel, BodySlot), e)
    ensures OnDelegate(b1.(nested := st.nested), depth)
        == Ok(WithCurrent(st, next, Current(st) + [e.(kind := DelegateTry, delegate := Index(depth))]))
  {
    hide Get, Put, PathOf;
    BuildingList(st, next, TryOp, Label(TryLabel, BodySlot), e);
    assert b1.labels[..|b1.labels| - 1] == st.labels;
    var l := Current(st) + [e];
    var e1 := e.(kind := DelegateTry, delegate := Index(depth));
    assert SetLast(l, e1) == Current(st) + [e1];
    PutPut(st.root, PathOf(st.labels), l, SetLast(l, e1));
  }

  lemma {:induction false} ReadsTry(r: Reader, o: Options, p: seq<byte>, end: nat, st: State, e: Expr)
    requires e.Try? && WellFormedExpr(r, e) && Facing(r, p, end, st, Bytes(o, EmitExpr(r.types, e)))
    requires |st.labels| + NestingOf(e) <= MAX_NESTING_DEPTH
    ensures Run(r, p, end, st) == Run(r, p, end, WithCurrent(st, st.offset + |Bytes(o, EmitExpr(r.types, e))|,
        Current(st) + [NormalExpr(r.types, e)]))
    decreases e, 1
  {
    hide Run, FromCode, Code, Stands, Get, Put, PathOf, Bytes, EmitList, WellFormed, WellFormedCatches, EmitCatches,
        NormalCatches, DeclOk, EmitDecl, NormalDecl, ReadBlockType, Nesting, NestingIn, EmitVar, Normal;
    var top := Label(TryLabel, BodySlot);
    var d := NormalDecl(r.types, e.decl);
    var e0 := Try("", d, [], PlainTry, [], Index(0));
    var a := EmitList(r.types, e.body);
    var tail := TryTail(r.types, e);
    var rest := a + tail;
    assert EmitExpr(r.types, e) == [Opcode1(TryOp), EmitDecl(r.types, e.decl)] + rest;
    HeaderStands(o, r.types, TryOp, e.decl, rest, p, st.offset);
    var next := st.offset + 1 + |ChunkBytes(o, EmitDecl(r.types, e.decl))|;
    RunOpen(r, p, end, st, TryOp, top, e0, d, next);
    Split(o, a, tail, p, next);
    var mid := next + |Bytes(o, a)|;
    BuildingList(st, next, TryOp, top, e0);
    ReadsList(r, o, p, end, Building(st, next, TryOp, top, e0), e.body);
    var body := Normal(r.types, e.body);
    assert [] + body == body;
    var e1 := Try("", d, body, PlainTry, [], Index(0));
    if e.kind == CatchTry {
      ReadsHandlers(r, o, p, end, st, mid, e, e1);
    } else {
      ReadsTryEnd(r, o, p, end, st, mid, e, e1);
    }
  }

  function TryTail(types: seq<FuncType>, e: Expr): seq<Chunk>
    requires e.Try?
  {
    match e.kind
    case PlainTry => [Opcode1(EndOp)]
    case CatchTry => EmitCatches(types, e.catches) + [Opcode1(EndOp)]
    case DelegateTry => [Opcode1(DelegateOp), EmitVar(e.delegate)]
  }

  lemma TryUnfold(r: Reader, e: Expr, e1: Expr)
    requires e.Try? && e.kind != CatchTry && WellFormedExpr(r, e)
    requires e1 == Try("", NormalDecl(r.types, e.decl), Normal(r.types, e.body), PlainTry, [], Index(0))
    ensures VarOk(e.delegate) && (e.kind == PlainTry ==> e.delegate == Index(0))
    ensures NormalExpr(r.types, e) == e1.(kind := e.kind, delegate := Index(e.delegate.depth))
  {
    hide WellFormed, DeclOk, NormalDecl, Normal;
    NoExprs(r.types);
  }

  lemma ReadsTryEnd(r: Reader, o: Options, p: seq<byte>, end: nat, st: State, mid: nat, e: Expr, e1: Expr)
    requires e.Try? && e.kind != CatchTry && WellFormedExpr(r, e) && st.labels != []
        && Get(st.root, PathOf(st.labels)).Some?
    requires e1 == Try("", NormalDecl(r.types, e.decl), Normal(r.types, e.body), PlainTry, [], Index(0))
    requires Stands(p, mid, Bytes(o, TryTail(r.types, e))) && mid + |Bytes(o, TryTail(r.types, e))| <= end <= |p|
    ensures Run(r, p, end, Building(st, mid, TryOp, Label(TryLabel, BodySlot), e1))
            == Run(r, p, end, WithCurrent(st, mid + |Bytes(o, TryTail(r.types, e))|,
                Current(st) + [NormalExpr(r.types, e)]))
  {
    hide Run, FromCode, Code, Stands, Get, Put, PathOf, Bytes, WellFormed, DeclOk, NormalDecl, Normal, EmitVar,
        ReadIndex, WellFormedExpr, NormalExpr, WithCurrent, Building, Current;
    TryUnfold(r, e, e1);
    NoBytes(o);
    if e.kind == PlainTry {
      assert [Opcode1(EndOp)] + [] == [Opcode1(EndOp)];
      OpStands(o, EndOp, [], p, mid);
      RunEnd(r, p, end, st, mid, TryOp, Label(TryLabel, BodySlot), e1);
    } else {
      var c := EmitVar(e.delegate);
      assert [Opcode1(DelegateOp), c] == [Opcode1(DelegateOp)] + [c];
      OpStands(o, DelegateOp, [c], p, mid);
      OneChunk(o, c, 0);
      VarReads(o, e.delegate, p, mid + 1);
      RunDelegate(r, p, end, st, mid, e1, e.delegate.depth, mid + 1 + |ChunkBytes(o, c)|);
    }
  }

  lemma {:induction false} ReadsHandlers(r: Reader, o: Options, p: seq<byte>, end: nat, st: State, mid: nat, e: Expr,
      e1: Expr)
    requires e.Try? && e.kind == CatchTry && WellFormedExpr(r, e) && st.labels != []
        && Get(st.root, PathOf(st.labels)).Some?
    requires e1 == Try("", NormalDecl(r.types, e.decl), Normal(r.types, e.body), PlainTry, [], Index(0))
    requires Stands(p, mid, Bytes(o, TryTail(r.types, e))) && mid + |Bytes(o, TryTail(r.types, e))| <= end <= |p|
    requires |st.labels| + NestingOf(e) <= MAX_NESTING_DEPTH
    ensures Run(r, p, end, Building(st, mid, TryOp, Label(TryLabel, BodySlot), e1))
            == Run(r, p, end, WithCurrent(st, mid + |Bytes(o, TryTail(r.types, e))|,
                Current(st) + [NormalExpr(r.types, e)]))
    decreases e, 0
  {
    hide Run, FromCode, Code, Stands, Get, Put, PathOf, Bytes, WellFormed, WellFormedCatches, EmitCatches,
        NormalCatches, DeclOk, NormalDecl, Normal, Nesting, NestingIn;
    var cs := EmitCatches(r.types, e.catches);
    Split(o, cs, [Opcode1(EndOp)], p, mid);
    var last := mid + |Bytes(o, cs)|;
    assert [Opcode1(EndOp)] + [] == [Opcode1(EndOp)];
    OpStands(o, EndOp, [], p, last);
    NoBytes(o);
    ReadsCatches(r, o, p, end, st, mid, BodySlot, e1, e.catches);
    assert [] + NormalCatches(r.types, e.catches) == NormalCatches(r.types, e.catches);
    SomeCatches(r.types, e.catches);
    RunEnd(r, p, end, st, last, TryOp, Label(TryLabel, CatchSlot), NormalExpr(r.types, e));
  }

  lemma SomeCatches(types: seq<FuncType>, cs: seq<Catch>)
    requires cs != []
    ensures NormalCatches(types, cs) != []
  {}

  /** The clauses of a try, appended one after the other. */
  lemma {:induction false} ReadsCatches(r: Reader, o: Options, p: seq<byte>, end: nat, st: State, offset: nat,
      slot: Slot, e: Expr, cs: seq<Catch>)
    requires e.Try? && e.kind != DelegateTry && ListOf(e, slot).Some? && st.labels != []
        && Get(st.root, PathOf(st.labels)).Some?
    requires cs != [] && WellFormedCatches(r, cs)
    requires cs[0].tag == None && e.catches != [] ==> Last(e.catches).tag.Some?
    requires Stands(p, offset, Bytes(o, EmitCatches(r.types, cs)))
        && offset + |Bytes(o, EmitCatches(r.types, cs))| < end <= |p|
    requires |st.labels| + 1 + NestingIn(cs) <= MAX_NESTING_DEPTH
    ensures Run(r, p, end, Building(st, offset, TryOp, Label(TryLabel, slot), e))
            == Run(r, p, end, Building(st, offset + |Bytes(o, EmitCatches(r.types, cs))|, TryOp,
                Label(TryLabel, CatchSlot),
                                       e.(kind := CatchTry, catches := e.catches + NormalCatches(r.types, cs))))
    decreases cs, 0
  {
    hide Run, FromCode, Code, Stands, Get, Put, PathOf, Bytes, EmitList, WellFormed, Normal, Nesting, EmitTag;
    hide EmitCatches, NormalCatches, WellFormedCatches, NestingIn, Building;
    CatchesUnfold(r, cs);
    var head, rest := EmitTag(cs[0].tag) + EmitList(r.types, cs[0].exprs), EmitCatches(r.types, cs[1..]);
    Split(o, head, rest, p, offset);
    ReadsClause(r, o, p, end, st, offset, slot, e, cs[0]);
    var c := Catch(cs[0].tag, Normal(r.types, cs[0].exprs));
    var e2 := e.(kind := CatchTry, catches := e.catches + [c]);
    var mid := offset + |Bytes(o, head)|;
    if cs[1..] == [] {
      NoExprs(r.types);
      NoBytes(o);
      assert e.catches + ([c] + []) == e2.catches;
    } else {
      ReadsCatches(r, o, p, end, st, mid, CatchSlot, e2, cs[1..]);
      assert e2.catches + NormalCatches(r.types, cs[1..]) == e.catches + NormalCatches(r.types, cs);
    }
  }

  /** One clause. */
  lemma {:induction false} ReadsClause(r: Reader, o: Options, p: seq<byte>, end: nat, st: State, offset: nat,
      slot: Slot, e: Expr, c: Catch)
    requires e.Try? && e.kind != DelegateTry && ListOf(e, slot).Some? && st.labels != []
        && Get(st.root, PathOf(st.labels)).Some?
    requires WellFormed(r, c.exprs) && (c.tag.Some? ==> c.tag.value < TWO_TO_32)
    requires c.tag == None && e.catches != [] ==> Last(e.catches).tag.Some?
    requires var bytes := Bytes(o, EmitTag(c.tag) + EmitList(r.types, c.exprs));
        Stands(p, offset, bytes) && offset + |bytes| < end <= |p|
    requires |st.labels| + 1 + Nesting(c.exprs) <= MAX_NESTING_DEPTH
    ensures Run(r, p, end, Building(st, offset, TryOp, Label(TryLabel, slot), e))
            == Run(r, p, end, Building(st, offset + |Bytes(o, EmitTag(c.tag) + EmitList(r.types, c.exprs))|, TryOp,
                Label(TryLabel, CatchSlot),
                e.(kind := CatchTry, catches := e.catches + [Catch(c.tag, Normal(r.types, c.exprs))])))
    decreases c, 0
  {
    hide Run, FromCode, Code, Stands, Get, Put, PathOf, Bytes, EmitList, WellFormed, Normal, Nesting, EmitTag, Building;
    var head, body := EmitTag(c.tag), EmitList(r.types, c.exprs);
    Split(o, head, body, p, offset);
    var next := offset + |Bytes(o, head)|;
    TagReads(o, c.tag, p, offset);
    RunCatch(r, p, end, st, offset, slot, e, c.tag, next);
    var e1 := e.(kind := CatchTry, catches := e.catches + [Catch(c.tag, [])]);
    var top := Label(TryLabel, CatchSlot);
    BuildingList(st, next, TryOp, top, e1);
    ReadsList(r, o, p, end, Building(st, next, TryOp, top, e1), c.exprs);
    var done := Normal(r.types, c.exprs);
    assert [] + done == done;
    assert SetLast(e1.catches, Catch(c.tag, done)) == e.catches + [Catch(c.tag, done)];
  }

  lemma CatchesUnfold(r: Reader, cs: seq<Catch>)
    requires cs != [] && WellFormedCatches(r, cs)
    ensures WellFormed(r, cs[0].exprs) && WellFormedCatches(r, cs[1..])
    ensures cs[0].tag.Some? ==> cs[0].tag.value < TWO_TO_32
    ensures cs[1..] != [] && cs[0].tag == None ==> cs[1].tag.Some?
    ensures EmitCatches(r.types, cs) == EmitTag(cs[0].tag) + EmitList(r.types, cs[0].exprs)
        + EmitCatches(r.types, cs[1..])
    ensures NormalCatches(r.types, cs) == [Catch(cs[0].tag, Normal(r.types, cs[0].exprs))]
        + NormalCatches(r.types, cs[1..])
    ensures NestingIn(cs) == Max(Nesting(cs[0].exprs), NestingIn(cs[1..]))
  {
    hide EmitTag;
  }

  lemma TagReads(o: Options, tag: Option<nat>, p: seq<byte>, i: nat)
    requires (tag.Some? ==> tag.value < TWO_TO_32) && Stands(p, i, Bytes(o, EmitTag(tag)))
    ensures i < |p| && FromCode(p[i]) == Some(if tag == None then CatchAllOp else CatchOp)
    ensures i < i + |Bytes(o, EmitTag(tag))| <= |p|
    ensures if tag == None then |Bytes(o, EmitTag(tag))| == 1
        else ReadIndex(p, i + 1) == Some((tag.value, i + |Bytes(o, EmitTag(tag))|))
  {
    hide FromCode, Code, Stands, ReadIndex, EncodeU, Bytes;
    NoBytes(o);
    match tag
    case None =>
      assert [Opcode1(CatchAllOp)] + [] == [Opcode1(CatchAllOp)];
      OpStands(o, CatchAllOp, [], p, i);
    case Some(t) =>
      var c := Raw(EncodeU(t));
      assert [Opcode1(CatchOp), c] == [Opcode1(CatchOp)] + [c];
      OpStands(o, CatchOp, [c], p, i);
      OneChunk(o, c, 0);
      NumberReads(t, p, i + 1);
  }

  /** The state in which the reader starts a function body. */
  function BodyStart(offset: nat): State { State(offset, [], [Label(FuncLabel, BodySlot)], []) }

  /** A whole body: the same tree up to signatures, exactly its bytes, no label left open. */
  lemma BodyRoundTrip(r: Reader, o: Options, p: seq<byte>, offset: nat, end: nat, es: seq<Expr>)
    requires WellFormed(r, es) && Nesting(es) < MAX_NESTING_DEPTH
    requires Stands(p, offset, Bytes(o, EmitList(r.types, es) + [Opcode1(EndOp)]))
        && end == offset + |Bytes(o, EmitList(r.types, es) + [Opcode1(EndOp)])|
    ensures Run(r, p, end, BodyStart(offset)) == Stop(State(end, [], [], Normal(r.types, es)))
  {
    hide FromCode, Code, Bytes, EmitList, WellFormed, Normal, Nesting, Step, Stands;
    var st := BodyStart(offset);
    var body := EmitList(r.types, es);
    Split(o, body, [Opcode1(EndOp)], p, offset);
    assert [Opcode1(EndOp)] + [] == [Opcode1(EndOp)];
    OpStands(o, EndOp, [], p, offset + |Bytes(o, body)|);
    NoBytes(o);
    assert PathOf(st.labels) == [];
    ReadsList(r, o, p, end, st, es);
    assert Current(st) + Normal(r.types, es) == Normal(r.types, es);
    var st1 := State(end - 1, [], st.labels, Normal(r.types, es));
    LastEnd(r, p, st1);
  }

  /** The END of the body itself. */
  lemma LastEnd(r: Reader, p: seq<byte>, st: State)
    requires st.offset < |p| && FromCode(p[st.offset]) == Some(EndOp) && st.nested == []
        && st.labels == [Label(FuncLabel, BodySlot)]
    ensures Step(r, p, st) == Stop(State(st.offset + 1, [], [], st.root))
  {
    hide FromCode;
  }
}

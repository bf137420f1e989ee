/** Instruction trees as bytes: what the writer emits, and the reader's pushdown machine with
    the tree its delegate builds. */
module TreeCodec {
  import opened Ir
  import opened Leb128
  import opened BinaryWriter
  import opened Opcodes
  import opened Immediates

  // ----- writing -----

  /** The index of the first type with this signature. */
  function FindType(types: seq<FuncType>, sig: FuncType): (i: nat)
    ensures i <= |types| && (i < |types| <==> sig in types) && (i < |types| ==> types[i] == sig)
    ensures forall j | 0 <= j < i :: types[j] != sig
  {
    if types == [] then 0 else if types[0] == sig then 0 else 1 + FindType(types[1..], sig)
  }

  predicate Inline(sig: FuncType) { sig.params == [] && |sig.results| <= 1 }

  function DeclIndex(types: seq<FuncType>, d: BlockDecl): nat {
    if d.typeIndex.Some? then d.typeIndex.value else FindType(types, d.sig)
  }

  /** A value type's code, as a signed number. */
  function TypeCode(t: Type): int {
    match t case I32 => -1 case I64 => -2 case F32 => -3 case F64 => -4
  }

  const VOID_CODE: int := -64

  function EmitDecl(types: seq<FuncType>, d: BlockDecl): Chunk {
    if Inline(d.sig) then Raw(EncodeS(if d.sig.results == [] then VOID_CODE else TypeCode(d.sig.results[0])))
    else Indexed(TypeIndexLEB, Index32(DeclIndex(types, d)))
  }

  function Depth(v: Var): u32 { if v.Index? then Index32(v.depth) else 0 }

  function EmitVar(v: Var): Chunk { Raw(EncodeU(Depth(v))) }

  function EmitVars(vs: seq<Var>): seq<Chunk> {
    if vs == [] then [] else [EmitVar(vs[0])] + EmitVars(vs[1..])
  }

  function EmitList(types: seq<FuncType>, es: seq<Expr>): seq<Chunk>
    decreases es, 0
  {
    if es == [] then [] else EmitExpr(types, es[0]) + EmitList(types, es[1..])
  }

  function EmitExpr(types: seq<FuncType>, e: Expr): seq<Chunk>
    decreases e, 1
  {
    match e
    case Plain(i) => EmitInstr(i)
    case Br(v) => [Opcode1(BrOp), EmitVar(v)]
    case BrIf(v) => [Opcode1(BrIfOp), EmitVar(v)]
    case BrTable(vs, d) => [Opcode1(BrTableOp), Raw(EncodeU(|vs|))] + EmitVars(vs) + [EmitVar(d)]
    case Return => [Opcode1(ReturnOp)]
    case Unreachable => [Opcode1(UnreachableOp)]
    case Throw(t) => [Opcode1(ThrowOp), Raw(EncodeU(t))]
    case Rethrow(v) => [Opcode1(RethrowOp), EmitVar(v)]
    case Block(_, d, b) => [Opcode1(BlockOp), EmitDecl(types, d)] + EmitList(types, b) + [Opcode1(EndOp)]
    case Loop(_, d, b) => [Opcode1(LoopOp), EmitDecl(types, d)] + EmitList(types, b) + [Opcode1(EndOp)]
    case If(_, d, a, b) =>
      [Opcode1(IfOp), EmitDecl(types, d)] + EmitList(types, a)
      + (if b == [] then [] else [Opcode1(ElseOp)] + EmitList(types, b)) + [Opcode1(EndOp)]
    case Try(_, d, b, kind, cs, v) =>
      [Opcode1(TryOp), EmitDecl(types, d)] + EmitList(types, b)
      + (match kind
         case PlainTry => [Opcode1(EndOp)]
         case CatchTry => EmitCatches(types, cs) + [Opcode1(EndOp)]
         case DelegateTry => [Opcode1(DelegateOp), EmitVar(v)])
  }

  function EmitCatches(types: seq<FuncType>, cs: seq<Catch>): seq<Chunk>
    decreases cs, 0
  {
    if cs == [] then []
    else EmitTag(cs[0].tag) + EmitList(types, cs[0].exprs) + EmitCatches(types, cs[1..])
  }

  function EmitTag(tag: Option<nat>): seq<Chunk> {
    match tag
    case None => [Opcode1(CatchAllOp)]
    case Some(t) => [Opcode1(CatchOp), Raw(EncodeU(t))]
  }

  // ----- the tree being built -----

  /** The list inside an expression that new expressions go to. */
  datatype Slot = BodySlot | ThenSlot | ElseSlot | CatchSlot

  datatype Kind = FuncLabel | BlockLabel | LoopLabel | IfLabel | ElseLabel | TryLabel

  /** An entry of the label stack; its list is the `slot` of the last expression of the list
      of the entry below. */
  datatype Label = Label(kind: Kind, slot: Slot)

  function Last<T>(s: seq<T>): T
    requires s != []
  {
    s[|s| - 1]
  }

  function SetLast<T>(s: seq<T>, x: T): seq<T>
    requires s != []
  {
    s[..|s| - 1] + [x]
  }

  function ListOf(e: Expr, slot: Slot): Option<seq<Expr>> {
    match slot
    case BodySlot => if e.Block? || e.Loop? || e.Try? then Some(e.body) else None
    case ThenSlot => if e.If? then Some(e.thn) else None
    case ElseSlot => if e.If? then Some(e.els) else None
    case CatchSlot => if e.Try? && e.catches != [] then Some(Last(e.catches).exprs) else None
  }

  function WithList(e: Expr, slot: Slot, es: seq<Expr>): Expr {
    match e
    case Block(l, d, _) => if slot == BodySlot then Block(l, d, es) else e
    case Loop(l, d, _) => if slot == BodySlot then Loop(l, d, es) else e
    case If(l, d, a, b) => if slot == ThenSlot then If(l, d, es, b) else if slot == ElseSlot then If(l, d, a, es) else e
    case Try(l, d, b, kind, cs, v) =>
      if slot == BodySlot then Try(l, d, es, kind, cs, v)
      else if slot == CatchSlot && cs != [] then Try(l, d, b, kind, SetLast(cs, Last(cs).(exprs := es)), v)
      else e
    case _ => e
  }

  type Path = seq<Slot>

  function Get(root: seq<Expr>, path: Path): Option<seq<Expr>>
    decreases |path|
  {
    if path == [] then Some(root)
    else if root == [] then None
    else match ListOf(Last(root), path[0])
         case None => None
         case Some(es) => Get(es, path[1..])
  }

  function Put(root: seq<Expr>, path: Path, es: seq<Expr>): seq<Expr>
    decreases |path|
  {
    if path == [] then es
    else if root == [] then root
    else match ListOf(Last(root), path[0])
         case None => root
         case Some(sub) => SetLast(root, WithList(Last(root), path[0], Put(sub, path[1..], es)))
  }

  // ----- reading -----

  const MAX_NESTING_DEPTH: nat := 16384

  /** The reader's offset and block stack, and its delegate's label stack and tree. */
  datatype State = State(offset: nat, nested: seq<Opcode>, labels: seq<Label>, root: seq<Expr>)

  function PathOf(labels: seq<Label>): Path {
    if |labels| <= 1 then [] else PathOf(labels[..|labels| - 1]) + [labels[|labels| - 1].slot]
  }

  /** Why reading stopped: bad input, or an access beyond the label stack or to a missing
      parent expression. */
  datatype Failure = Malformed | NoLabel | NoParent

  datatype Reply = Ok(st: State) | Stop(st: State) | Fail(why: Failure)

  function PushLabel(st: State, top: Label): Reply {
    if |st.labels| >= MAX_NESTING_DEPTH then Fail(Malformed) else Ok(st.(labels := st.labels + [top]))
  }

  function AppendExpr(st: State, e: Expr): Reply {
    if st.labels == [] then Fail(NoLabel)
    else match Get(st.root, PathOf(st.labels))
         case None => Fail(NoParent)
         case Some(l) => Ok(st.(root := Put(st.root, PathOf(st.labels), l + [e])))
  }

  function Open(st: State, e: Expr, top: Label): Reply {
    match AppendExpr(st, e)
    case Ok(st1) => PushLabel(st1, top)
    case r => r
  }

  /** The list of the entry below the top, which ends with the expression being built. */
  function ParentList(st: State): Option<seq<Expr>> {
    if |st.labels| < 2 then None else Get(st.root, PathOf(st.labels[..|st.labels| - 1]))
  }

  function TopLabelExpr(st: State): Option<Failure> {
    if |st.labels| < 2 then Some(NoLabel)
    else match ParentList(st)
         case None => Some(NoParent)
         case Some(l) => if l == [] then Some(NoParent) else None
  }

  function SetTop(st: State, top: Label): State
    requires st.labels != []
  {
    st.(labels := SetLast(st.labels, top))
  }

  function OnElse(st: State): Reply {
    match TopLabelExpr(st)
    case Some(f) => Fail(f)
    case None => if Last(st.labels).kind == IfLabel then Ok(SetTop(st, Label(ElseLabel, ElseSlot))) else Fail(Malformed)
  }

  function PopLabel(st: State): Reply {
    if st.labels == [] then Fail(NoLabel) else Ok(st.(labels := st.labels[..|st.labels| - 1]))
  }

  function OnEnd(st: State): Reply {
    if |st.labels| > 1 && TopLabelExpr(st).Some? then Fail(TopLabelExpr(st).value) else PopLabel(st)
  }

  /** Replace the expression being built. */
  function SetBuilt(st: State, l: seq<Expr>, e: Expr): State
    requires |st.labels| >= 2 && l != []
  {
    st.(root := Put(st.root, PathOf(st.labels[..|st.labels| - 1]), SetLast(l, e)))
  }

  function OnCatch(st: State, tag: Option<nat>): Reply {
    if st.labels == [] then Fail(NoLabel)
    else if Last(st.labels).kind != TryLabel then Fail(Malformed)
    else match TopLabelExpr(st)
         case Some(f) => Fail(f)
         case None =>
           var l := ParentList(st).value;
           var e := Last(l);
           if !e.Try? then Fail(NoParent)
           else if tag == None && e.catches != [] && Last(e.catches).tag == None then Fail(Malformed)
           else if e.kind == DelegateTry then Fail(Malformed)
           else Ok(SetTop(SetBuilt(st, l, e.(kind := CatchTry, catches := e.catches + [Catch(tag, [])])),
               Label(TryLabel, CatchSlot)))
  }

  function OnDelegate(st: State, depth: nat): Reply {
    if st.labels == [] then Fail(NoLabel)
    else if Last(st.labels).kind != TryLabel then Fail(Malformed)
    else match TopLabelExpr(st)
         case Some(f) => Fail(f)
         case None =>
           var l := ParentList(st).value;
           var e := Last(l);
           if !e.Try? then Fail(NoParent)
           else if e.kind == CatchTry then Fail(Malformed)
           else PopLabel(SetBuilt(st, l, e.(kind := DelegateTry, delegate := Index(depth))))
  }

  /** A block signature: an inline type, or an index into the types. */
  function BlockType(types: seq<FuncType>, code: int): Option<BlockDecl> {
    if code == VOID_CODE then Some(BlockDecl(FuncType([], []), None))
    else if code == -1 then Some(BlockDecl(FuncType([], [I32]), None))
    else if code == -2 then Some(BlockDecl(FuncType([], [I64]), None))
    else if code == -3 then Some(BlockDecl(FuncType([], [F32]), None))
    else if code == -4 then Some(BlockDecl(FuncType([], [F64]), None))
    else if code >= 0 then Some(BlockDecl(if code < |types| then types[code] else FuncType([], []), Some(code)))
    else None
  }

  function ReadBlockType(types: seq<FuncType>, p: seq<byte>, i: nat): Option<(BlockDecl, nat)> {
    match ReadS32(p, i)
    case None => None
    case Some(r) =>
      if r.value < 0 then None
      else match BlockType(types, Twos(TWO_TO_31, r.value))
           case None => None
           case Some(d) => Some((d, r.next))
  }

  function ReadIndex(p: seq<byte>, i: nat): Option<(nat, nat)> {
    match ReadU32(p, i)
    case None => None
    case Some(r) => if r.value >= 0 then Some((r.value, r.next)) else None
  }

  function ReadIndices(p: seq<byte>, i: nat, n: nat): Option<(seq<Var>, nat)>
    decreases n
  {
    if n == 0 then Some(([], i))
    else match ReadIndex(p, i)
         case None => None
         case Some(x) =>
           match ReadIndices(p, x.1, n - 1)
           case None => None
           case Some(r) => Some(([Index(x.0)] + r.0, r.1))
  }

  /** Targets and default of a br_table; a count larger than the bytes left is refused. */
  function ReadBrTable(p: seq<byte>, i: nat): Option<(Expr, nat)> {
    match ReadIndex(p, i)
    case None => None
    case Some(n) =>
      if n.1 + n.0 > |p| then None
      else match ReadIndices(p, n.1, n.0)
           case None => None
           case Some(vs) =>
             match ReadIndex(p, vs.1)
             case None => None
             case Some(d) => Some((BrTable(vs.0, Index(d.0)), d.1))
  }

  /** Opcodes outside this instruction set: any decoding of their immediates to an instruction. */
  type Others = (seq<byte>, nat) -> Option<(Instr, nat)>

  datatype Reader = Reader(types: seq<FuncType>, features: Features, others: Others)

  function StepBlock(r: Reader, p: seq<byte>, st: State, op: Opcode): Reply {
    match ReadBlockType(r.types, p, st.offset)
    case None => Fail(Malformed)
    case Some(d) =>
      var st1 := st.(offset := d.1, nested := st.nested + [op]);
      match op
      case BlockOp => Open(st1, Block("", d.0, []), Label(BlockLabel, BodySlot))
      case LoopOp => Open(st1, Loop("", d.0, []), Label(LoopLabel, BodySlot))
      case IfOp => Open(st1, If("", d.0, [], []), Label(IfLabel, ThenSlot))
      case _ => Open(st1, Try("", d.0, [], PlainTry, [], Index(0)), Label(TryLabel, BodySlot))
  }

  function StepIndexed(r: Reader, p: seq<byte>, st: State, op: Opcode): Reply {
    match ReadIndex(p, st.offset)
    case None => Fail(Malformed)
    case Some(x) =>
      var st1 := st.(offset := x.1);
      match op
      case BrOp => AppendExpr(st1, Br(Index(x.0)))
      case BrIfOp => AppendExpr(st1, BrIf(Index(x.0)))
      case ThrowOp => AppendExpr(st1, Throw(x.0))
      case RethrowOp => AppendExpr(st1, Rethrow(Index(x.0)))
      case CatchOp => OnCatch(st1, Some(x.0))
      case _ =>
        if st.nested == [] || Last(st.nested) != TryOp then Fail(Malformed)
        else OnDelegate(st1.(nested := st.nested[..|st.nested| - 1]), x.0)
  }

  function StepEnd(st: State): Reply {
    match OnEnd(st)
    case Ok(st1) => if st.nested == [] then Stop(st1) else Ok(st1.(nested := st.nested[..|st.nested| - 1]))
    case f => f
  }

  function StepInstr(st: State, x: Option<(Instr, nat)>): Reply {
    match x
    case None => Fail(Malformed)
    case Some(y) => AppendExpr(st.(offset := y.1), Plain(y.0))
  }

  /** What the reader does with the opcode in front of `st.offset`. */
  function StepOp(r: Reader, p: seq<byte>, st: State, op: Opcode): Reply {
    match op
    case UnreachableOp => AppendExpr(st, Unreachable)
    case ReturnOp => AppendExpr(st, Return)
    case BlockOp => StepBlock(r, p, st, op)
    case LoopOp => StepBlock(r, p, st, op)
    case IfOp => StepBlock(r, p, st, op)
    case TryOp => StepBlock(r, p, st, op)
    case ElseOp => if st.nested == [] || Last(st.nested) != IfOp then Fail(Malformed) else OnElse(st)
    case CatchAllOp => OnCatch(st, None)
    case EndOp => StepEnd(st)
    case BrTableOp =>
      (match ReadBrTable(p, st.offset)
       case None => Fail(Malformed)
       case Some(x) => AppendExpr(st.(offset := x.1), x.0))
    case BrOp => StepIndexed(r, p, st, op)
    case BrIfOp => StepIndexed(r, p, st, op)
    case ThrowOp => StepIndexed(r, p, st, op)
    case RethrowOp => StepIndexed(r, p, st, op)
    case CatchOp => StepIndexed(r, p, st, op)
    case DelegateOp => StepIndexed(r, p, st, op)
    case _ => StepInstr(st, ReadInstr(r.features, op, p, st.offset))
  }

  /** One turn of the loop of ReadInstructions. Reading never moves back. */
  function Step(r: Reader, p: seq<byte>, st: State): Reply {
    if st.offset >= |p| then Fail(Malformed)
    else
      var reply := match FromCode(p[st.offset])
                   case Some(op) => StepOp(r, p, st.(offset := st.offset + 1), op)
                   case None => StepInstr(st.(offset := st.offset + 1), r.others(p, st.offset));
      if reply.Fail? || st.offset < reply.st.offset <= |p| then reply else Fail(Malformed)
  }

  /** ReadInstructions: until the END of the outermost block, or `end`. */
  function Run(r: Reader, p: seq<byte>, end: nat, st: State): Reply
    decreases |p| - st.offset
  {
    if st.offset >= end then Fail(Malformed)
    else match Step(r, p, st)
         case Ok(st1) => Run(r, p, end, st1)
         case reply => reply
  }
}

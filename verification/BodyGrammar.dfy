/** The binary format of function bodies as a grammar, after section 5.4 of the WebAssembly Core
    Specification and the exception-handling proposal: what a byte string means, by recursive
    descent and with the bytes spelt out. Integers are those of the LEB128 grammar. */
module BodyGrammar {
  import opened Ir
  import opened Numbers
  import opened Leb128
  import opened TreeCodec

  // ----- immediates -----

  /** u32 */
  function Unsigned(p: seq<byte>, i: nat): Option<(nat, nat)> {
    match GrammarU(32, p, i)
    case None => None
    case Some(r) => if r.value >= 0 then Some((r.value, r.next)) else None
  }

  /** blocktype: one of five bytes, or the index of a type; an index beyond the types stands for
      a signature without values. */
  function BlockSig(types: seq<FuncType>, p: seq<byte>, i: nat): Option<(BlockDecl, nat)> {
    if i >= |p| then None
    else if p[i] == 0x40 then Some((BlockDecl(FuncType([], []), None), i + 1))
    else if p[i] == 0x7f then Some((BlockDecl(FuncType([], [I32]), None), i + 1))
    else if p[i] == 0x7e then Some((BlockDecl(FuncType([], [I64]), None), i + 1))
    else if p[i] == 0x7d then Some((BlockDecl(FuncType([], [F32]), None), i + 1))
    else if p[i] == 0x7c then Some((BlockDecl(FuncType([], [F64]), None), i + 1))
    else match GrammarS(32, p, i)
         case None => None
         case Some(r) =>
           if r.value >= 0 then
             Some((BlockDecl(if r.value < |types| then types[r.value] else FuncType([], []), Some(r.value)), r.next))
           else match LongSig(r.value)
                case None => None
                case Some(sig) => Some((BlockDecl(sig, None), r.next))
  }

  /** The five signatures written in more bytes than one. */
  function LongSig(code: int): Option<FuncType> {
    if code == 0x40 - 0x80 then Some(FuncType([], []))
    else if code == 0x7f - 0x80 then Some(FuncType([], [I32]))
    else if code == 0x7e - 0x80 then Some(FuncType([], [I64]))
    else if code == 0x7d - 0x80 then Some(FuncType([], [F32]))
    else if code == 0x7c - 0x80 then Some(FuncType([], [F64]))
    else None
  }

  function Labels(p: seq<byte>, i: nat, n: nat): Option<(seq<Var>, nat)>
    decreases n
  {
    if n == 0 then Some(([], i))
    else
      var x :- Unsigned(p, i);
      var rest :- Labels(p, x.1, n - 1);
      Some(([Index(x.0)] + rest.0, rest.1))
  }

  /** A vector of labels, whose length fits into the bytes left, and one more label. */
  function Table(p: seq<byte>, i: nat): Option<(Expr, nat)> {
    var n :- Unsigned(p, i);
    if n.1 + n.0 > |p| then None
    else
      var vs :- Labels(p, n.1, n.0);
      var d :- Unsigned(p, vs.1);
      Some((BrTable(vs.0, Index(d.0)), d.1))
  }

  datatype Memarg = Memarg(align: nat, memidx: nat, offset: nat, next: nat)

  /** Flags with the exponent of the alignment below 32 and 64 for a memory index, that index, and
      the offset. */
  function Memory(g: Reader, p: seq<byte>, i: nat): Option<Memarg> {
    var a :- Unsigned(p, i);
    if a.0 / 64 % 2 == 1 && !g.features.multiMemory then None
    else
      var log2: int := if a.0 / 64 % 2 == 1 then a.0 - 64 else a.0;
      if !(0 <= log2 < 32) then None
      else
        var k :- if a.0 / 64 % 2 == 1 then Unsigned(p, a.1) else Some((0, a.1));
        match GrammarU(if g.features.memory64 then 64 else 32, p, k.1)
        case None => None
        case Some(r) => if r.value >= 0 then Some(Memarg(Pow2(log2), k.0, r.value, r.next)) else None
  }

  /** Four or eight bytes, the least significant one first. */
  function Float32(p: seq<byte>, i: nat): nat
    requires i + 4 <= |p|
  {
    (p[i] as int) + 0x100 * (p[i + 1] as int) + 0x1_0000 * (p[i + 2] as int) + 0x100_0000 * (p[i + 3] as int)
  }

  function Float64(p: seq<byte>, i: nat): nat
    requires i + 8 <= |p|
  {
    Float32(p, i) + 0x1_0000_0000 * Float32(p, i + 4)
  }

  function Constant(b: byte, p: seq<byte>, i: nat): Option<(Value, nat)> {
    if b == 0x41 then
      match GrammarS(32, p, i)
      case None => None
      case Some(r) => Some((Value(I32, r.value % 0x1_0000_0000), r.next))
    else if b == 0x42 then
      match GrammarS(64, p, i)
      case None => None
      case Some(r) => Some((Value(I64, r.value % 0x1_0000_0000_0000_0000), r.next))
    else if b == 0x43 then if i + 4 <= |p| then Some((Value(F32, Float32(p, i)), i + 4)) else None
    else if i + 8 <= |p| then Some((Value(F64, Float64(p, i)), i + 8)) else None
  }

  // ----- opcodes -----

  function LoadShape(b: byte): Option<Access> {
    if b == 0x28 then Some(Access(I32, 4, false))
    else if b == 0x29 then Some(Access(I64, 8, false))
    else if b == 0x2a then Some(Access(F32, 4, false))
    else if b == 0x2b then Some(Access(F64, 8, false))
    else if b == 0x2c then Some(Access(I32, 1, true))
    else if b == 0x2d then Some(Access(I32, 1, false))
    else if b == 0x2e then Some(Access(I32, 2, true))
    else if b == 0x2f then Some(Access(I32, 2, false))
    else if b == 0x30 then Some(Access(I64, 1, true))
    else if b == 0x31 then Some(Access(I64, 1, false))
    else if b == 0x32 then Some(Access(I64, 2, true))
    else if b == 0x33 then Some(Access(I64, 2, false))
    else if b == 0x34 then Some(Access(I64, 4, true))
    else if b == 0x35 then Some(Access(I64, 4, false))
    else None
  }

  function StoreShape(b: byte): Option<Access> {
    if b == 0x36 then Some(Access(I32, 4, false))
    else if b == 0x37 then Some(Access(I64, 8, false))
    else if b == 0x38 then Some(Access(F32, 4, false))
    else if b == 0x39 then Some(Access(F64, 8, false))
    else if b == 0x3a then Some(Access(I32, 1, false))
    else if b == 0x3b then Some(Access(I32, 2, false))
    else if b == 0x3c then Some(Access(I64, 1, false))
    else if b == 0x3d then Some(Access(I64, 2, false))
    else if b == 0x3e then Some(Access(I64, 4, false))
    else None
  }

  /** The comparisons of a type, in the order of their opcodes. */
  function Relation(k: nat): RelOp {
    if k == 0 then Eq else if k == 1 then Ne else if k == 2 then LtS else if k == 3 then LtU else if k == 4 then GtS
    else if k == 5 then GtU else if k == 6 then LeS else if k == 7 then LeU else if k == 8 then GeS else GeU
  }

  function Operator(k: nat): BinOp {
    if k == 0 then Add else if k == 1 then Sub else if k == 2 then Mul else if k == 3 then DivS else if k == 4 then DivU
    else if k == 5 then RemS else if k == 6 then RemU else if k == 7 then And else if k == 8 then Or
    else if k == 9 then Xor else if k == 10 then Shl else if k == 11 then ShrS else if k == 12 then ShrU
    else if k == 13 then Rotl else Rotr
  }

  /** An instruction without immediates. */
  function Simple(b: byte): Option<Instr> {
    if b == 0x01 then Some(Nop)
    else if b == 0x1a then Some(Drop)
    else if b == 0x1b then Some(Select)
    else if b == 0x45 then Some(Eqz(I32))
    else if 0x46 <= b <= 0x4f then Some(Compare(I32, Relation(b - 0x46)))
    else if b == 0x50 then Some(Eqz(I64))
    else if 0x51 <= b <= 0x5a then Some(Compare(I64, Relation(b - 0x51)))
    else if 0x6a <= b <= 0x78 then Some(Binary(I32, Operator(b - 0x6a)))
    else if 0x7c <= b <= 0x8a then Some(Binary(I64, Operator(b - 0x7c)))
    else None
  }

  /** An instruction whose immediate is one index. */
  function WithIndex(b: byte, x: nat): Option<Expr> {
    if b == 0x08 then Some(Throw(x))
    else if b == 0x09 then Some(Rethrow(Index(x)))
    else if b == 0x0c then Some(Br(Index(x)))
    else if b == 0x0d then Some(BrIf(Index(x)))
    else if b == 0x10 then Some(Plain(Call(x)))
    else if b == 0x20 then Some(Plain(LocalGet(x)))
    else if b == 0x21 then Some(Plain(LocalSet(x)))
    else if b == 0x22 then Some(Plain(LocalTee(x)))
    else if b == 0x23 then Some(Plain(GlobalGet(x)))
    else if b == 0x24 then Some(Plain(GlobalSet(x)))
    else None
  }

  /** The instruction at `i`, if it is not one that contains others; opcodes that are not listed
      are left to `others`. */
  function Instruction(g: Reader, p: seq<byte>, i: nat): Option<(Expr, nat)>
    requires i < |p|
  {
    var b := p[i];
    if b == 0x00 then Some((Unreachable, i + 1))
    else if b == 0x0f then Some((Return, i + 1))
    else if Simple(b).Some? then Some((Plain(Simple(b).value), i + 1))
    else if WithIndex(b, 0).Some? then
      var x :- Unsigned(p, i + 1);
      Some((WithIndex(b, x.0).value, x.1))
    else if b == 0x0e then Table(p, i + 1)
    else if LoadShape(b).Some? then
      var m :- Memory(g, p, i + 1);
      Some((Plain(Load(LoadShape(b).value, m.align, m.memidx, m.offset)), m.next))
    else if StoreShape(b).Some? then
      var m :- Memory(g, p, i + 1);
      Some((Plain(Store(StoreShape(b).value, m.align, m.memidx, m.offset)), m.next))
    else if 0x41 <= b <= 0x44 then
      var c :- Constant(b, p, i + 1);
      Some((Plain(Const(c.0)), c.1))
    else
      var x :- g.others(p, i);
      Some((Plain(x.0), x.1))
  }

  // ----- expressions -----

  /** What ends a sequence of instructions. */
  datatype Ending = End | Else | CatchOf(tag: Option<nat>) | DelegateTo(depth: nat)

  predicate IsEnding(b: byte) { b == 0x05 || b == 0x07 || b == 0x0b || b == 0x18 || b == 0x19 }

  function EndingAt(p: seq<byte>, i: nat): Option<(Ending, nat)>
    requires i < |p|
  {
    if p[i] == 0x0b then Some((End, i + 1))
    else if p[i] == 0x05 then Some((Else, i + 1))
    else if p[i] == 0x19 then Some((CatchOf(None), i + 1))
    else
      var x :- Unsigned(p, i + 1);
      Some((if p[i] == 0x07 then CatchOf(Some(x.0)) else DelegateTo(x.0), x.1))
  }

  /** A sequence of instructions, the ending it was stopped by, and where that is. */
  datatype Item = Item(es: seq<Expr>, ending: Ending, at: nat, next: nat)

  predicate IsBlock(b: byte) { b == 0x02 || b == 0x03 || b == 0x04 || b == 0x06 }

  /** Instructions from `i` on, which begin before `end`; `open` labels are around them. */
  function Sequence(g: Reader, p: seq<byte>, end: nat, i: nat, open: nat): Option<Item>
    decreases |p| - i, 2
  {
    if i >= end || i >= |p| then None
    else if IsEnding(p[i]) then
      var x :- EndingAt(p, i);
      Some(Item([], x.0, i, x.1))
    else
      var x :- One(g, p, end, i, open);
      if !(i < x.1 <= |p|) then None
      else
        var rest :- Sequence(g, p, end, x.1, open);
        Some(rest.(es := [x.0] + rest.es))
  }

  /** One instruction, with all that it contains. */
  function One(g: Reader, p: seq<byte>, end: nat, i: nat, open: nat): Option<(Expr, nat)>
    requires i < |p|
    decreases |p| - i, 1
  {
    if !IsBlock(p[i]) then Instruction(g, p, i)
    else
      var d :- BlockSig(g.types, p, i + 1);
      if open >= 16384 || !(i < d.1 <= |p|) then None
      else
        var x :- Sequence(g, p, end, d.1, open + 1);
        Finish(g, p, end, i, open, d.0, x)
  }

  /** A block with the signature `d` whose first sequence is `x`. */
  function Finish(g: Reader, p: seq<byte>, end: nat, i: nat, open: nat, d: BlockDecl, x: Item): Option<(Expr, nat)>
    requires i < |p|
    decreases |p| - i, 0
  {
    match x.ending
    case End =>
      Some((if p[i] == 0x02 then Block("", d, x.es)
            else if p[i] == 0x03 then Loop("", d, x.es)
            else if p[i] == 0x04 then If("", d, x.es, [])
            else Try("", d, x.es, PlainTry, [], Index(0)), x.next))
    case Else =>
      if p[i] != 0x04 || !(i < x.next <= |p|) then None
      else
        var y :- Sequence(g, p, end, x.next, open + 1);
        if y.ending == End then Some((If("", d, x.es, y.es), y.next)) else None
    case DelegateTo(n) => if p[i] != 0x06 then None else Some((Try("", d, x.es, DelegateTry, [], Index(n)), x.next))
    case CatchOf(tag) =>
      if p[i] != 0x06 || !(i < x.next <= |p|) then None
      else
        var cs :- Clauses(g, p, end, x.next, open + 1, tag);
        Some((Try("", d, x.es, CatchTry, cs.0, Index(0)), cs.1))
  }

  /** The clauses of a try, from within the one for `tag` on; a catch_all does not follow another. */
  function Clauses(g: Reader, p: seq<byte>, end: nat, i: nat, open: nat, tag: Option<nat>): Option<(seq<Catch>, nat)>
    decreases |p| - i, 3
  {
    var x :- Sequence(g, p, end, i, open);
    match x.ending
    case End => Some(([Catch(tag, x.es)], x.next))
    case CatchOf(tag1) =>
      if (tag == None && tag1 == None) || !(i < x.next <= |p|) then None
      else
        var rest :- Clauses(g, p, end, x.next, open, tag1);
        Some(([Catch(tag, x.es)] + rest.0, rest.1))
    case _ => None
  }

  /** A function body's expressions: a sequence in the function's own label, up to its end. */
  function Body(g: Reader, p: seq<byte>, end: nat, i: nat): Option<(seq<Expr>, nat)> {
    var x :- Sequence(g, p, end, i, 1);
    if x.ending == End then Some((x.es, x.next)) else None
  }
}

/** Opcodes and their bytes, for the instructions of Ir. */
module Opcodes {
  import opened Ir
  import opened Leb128

  datatype IndexForm = LocalGetForm | LocalSetForm | LocalTeeForm | GlobalGetForm | GlobalSetForm | CallForm

  datatype Opcode =
    | UnreachableOp | BlockOp | LoopOp | IfOp | ElseOp | TryOp | CatchOp | ThrowOp | RethrowOp | EndOp
    | BrOp | BrIfOp | BrTableOp | ReturnOp | DelegateOp | CatchAllOp
    | SimpleOp(i: Instr)               // no immediates
    | IndexOp(form: IndexForm)
    | ConstOp(ty: Type)
    | LoadOp(acc: Access)
    | StoreOp(acc: Access)

  const BIN_OPS: seq<BinOp> := [Add, Sub, Mul, DivS, DivU, RemS, RemU, And, Or, Xor, Shl, ShrS, ShrU, Rotl, Rotr]

  const REL_OPS: seq<RelOp> := [Eq, Ne, LtS, LtU, GtS, GtU, LeS, LeU, GeS, GeU]

  const LOADS: seq<Access> := [
    Access(I32, 4, false), Access(I64, 8, false), Access(F32, 4, false), Access(F64, 8, false),
    Access(I32, 1, true), Access(I32, 1, false), Access(I32, 2, true), Access(I32, 2, false),
    Access(I64, 1, true), Access(I64, 1, false), Access(I64, 2, true), Access(I64, 2, false),
    Access(I64, 4, true), Access(I64, 4, false)]

  const STORES: seq<Access> := [
    Access(I32, 4, false), Access(I64, 8, false), Access(F32, 4, false), Access(F64, 8, false),
    Access(I32, 1, false), Access(I32, 2, false), Access(I64, 1, false), Access(I64, 2, false), Access(I64, 4, false)]

  /** The opcode of a byte; None for bytes outside this instruction set. */
  function FromCode(b: int): Option<Opcode> {
    if b == 0x00 then Some(UnreachableOp)
    else if b == 0x01 then Some(SimpleOp(Nop))
    else if b == 0x02 then Some(BlockOp)
    else if b == 0x03 then Some(LoopOp)
    else if b == 0x04 then Some(IfOp)
    else if b == 0x05 then Some(ElseOp)
    else if b == 0x06 then Some(TryOp)
    else if b == 0x07 then Some(CatchOp)
    else if b == 0x08 then Some(ThrowOp)
    else if b == 0x09 then Some(RethrowOp)
    else if b == 0x0b then Some(EndOp)
    else if b == 0x0c then Some(BrOp)
    else if b == 0x0d then Some(BrIfOp)
    else if b == 0x0e then Some(BrTableOp)
    else if b == 0x0f then Some(ReturnOp)
    else if b == 0x10 then Some(IndexOp(CallForm))
    else if b == 0x18 then Some(DelegateOp)
    else if b == 0x19 then Some(CatchAllOp)
    else if b == 0x1a then Some(SimpleOp(Drop))
    else if b == 0x1b then Some(SimpleOp(Select))
    else if b == 0x20 then Some(IndexOp(LocalGetForm))
    else if b == 0x21 then Some(IndexOp(LocalSetForm))
    else if b == 0x22 then Some(IndexOp(LocalTeeForm))
    else if b == 0x23 then Some(IndexOp(GlobalGetForm))
    else if b == 0x24 then Some(IndexOp(GlobalSetForm))
    else if 0x28 <= b < 0x36 then Some(LoadOp(LOADS[b - 0x28]))
    else if 0x36 <= b < 0x3f then Some(StoreOp(STORES[b - 0x36]))
    else if b == 0x41 then Some(ConstOp(I32))
    else if b == 0x42 then Some(ConstOp(I64))
    else if b == 0x43 then Some(ConstOp(F32))
    else if b == 0x44 then Some(ConstOp(F64))
    else if b == 0x45 then Some(SimpleOp(Eqz(I32)))
    else if 0x46 <= b < 0x50 then Some(SimpleOp(Compare(I32, REL_OPS[b - 0x46])))
    else if b == 0x50 then Some(SimpleOp(Eqz(I64)))
    else if 0x51 <= b < 0x5b then Some(SimpleOp(Compare(I64, REL_OPS[b - 0x51])))
    else if 0x6a <= b < 0x79 then Some(SimpleOp(Binary(I32, BIN_OPS[b - 0x6a])))
    else if 0x7c <= b < 0x8b then Some(SimpleOp(Binary(I64, BIN_OPS[b - 0x7c])))
    else None
  }

  function BinIndex(op: BinOp): byte {
    match op
    case Add => 0 case Sub => 1 case Mul => 2 case DivS => 3 case DivU => 4 case RemS => 5 case RemU => 6
    case And => 7 case Or => 8 case Xor => 9 case Shl => 10 case ShrS => 11 case ShrU => 12
    case Rotl => 13 case Rotr => 14
  }

  function RelIndex(op: RelOp): byte {
    match op
    case Eq => 0 case Ne => 1 case LtS => 2 case LtU => 3 case GtS => 4 case GtU => 5
    case LeS => 6 case LeU => 7 case GeS => 8 case GeU => 9
  }

  function SimpleCode(i: Instr): byte {
    match i
    case Nop => 0x01
    case Drop => 0x1a
    case Select => 0x1b
    case Eqz(ty) => if ty == I32 then 0x45 else 0x50
    case Compare(ty, op) => (if ty == I32 then 0x46 else 0x51) + RelIndex(op)
    case Binary(ty, op) => (if ty == I32 then 0x6a else 0x7c) + BinIndex(op)
    case _ => 0xff
  }

  function IndexCode(form: IndexForm): byte {
    match form
    case CallForm => 0x10 case LocalGetForm => 0x20 case LocalSetForm => 0x21 case LocalTeeForm => 0x22
    case GlobalGetForm => 0x23 case GlobalSetForm => 0x24
  }

  function LoadCode(a: Access): byte {
    if a.ty == F32 then 0x2a else if a.ty == F64 then 0x2b
    else if a.ty == I32 then (if a.bytes == 4 then 0x28 else if a.bytes == 1 then (if a.signed then 0x2c else 0x2d)
        else (if a.signed then 0x2e else 0x2f))
    else (if a.bytes == 8 then 0x29 else if a.bytes == 1 then (if a.signed then 0x30 else 0x31)
          else if a.bytes == 2 then (if a.signed then 0x32 else 0x33) else (if a.signed then 0x34 else 0x35))
  }

  function StoreCode(a: Access): byte {
    if a.ty == F32 then 0x38 else if a.ty == F64 then 0x39
    else if a.ty == I32 then (if a.bytes == 4 then 0x36 else if a.bytes == 1 then 0x3a else 0x3b)
    else (if a.bytes == 8 then 0x37 else if a.bytes == 1 then 0x3c else if a.bytes == 2 then 0x3d else 0x3e)
  }

  function Code(op: Opcode): byte {
    match op
    case UnreachableOp => 0x00 case BlockOp => 0x02 case LoopOp => 0x03 case IfOp => 0x04 case ElseOp => 0x05
    case TryOp => 0x06 case CatchOp => 0x07 case ThrowOp => 0x08 case RethrowOp => 0x09 case EndOp => 0x0b
    case BrOp => 0x0c case BrIfOp => 0x0d case BrTableOp => 0x0e case ReturnOp => 0x0f
    case DelegateOp => 0x18 case CatchAllOp => 0x19
    case SimpleOp(i) => SimpleCode(i)
    case IndexOp(form) => IndexCode(form)
    case ConstOp(ty) => (match ty case I32 => 0x41 case I64 => 0x42 case F32 => 0x43 case F64 => 0x44)
    case LoadOp(acc) => LoadCode(acc)
    case StoreOp(acc) => StoreCode(acc)
  }

  /** The instructions that exist: integer operators, and the access shapes of the tables. */
  predicate Exists(op: Opcode) {
    match op
    case SimpleOp(i) =>
      (match i
       case Nop => true case Drop => true case Select => true
       case Eqz(ty) => ty == I32 || ty == I64
       case Compare(ty, _) => ty == I32 || ty == I64
       case Binary(ty, _) => ty == I32 || ty == I64
       case _ => false)
    case LoadOp(acc) => acc in LOADS
    case StoreOp(acc) => acc in STORES
    case _ => true
  }

  /** Distinct opcodes have distinct bytes. */
  lemma CodeDecodes(op: Opcode)
    requires Exists(op)
    ensures FromCode(Code(op)) == Some(op)
  {
    hide FromCode, SimpleCode, LoadCode, StoreCode, IndexCode;
    match op
    case SimpleOp(i) => SimpleDecodes(i);
    case LoadOp(acc) => LoadDecodes(acc);
    case StoreOp(acc) => StoreDecodes(acc);
    case IndexOp(form) => IndexDecodes(form);
    case ConstOp(ty) => ConstDecodes(ty);
    case _ => ControlDecodes(op);
  }

  lemma ControlDecodes(op: Opcode)
    requires !op.SimpleOp? && !op.LoadOp? && !op.StoreOp? && !op.IndexOp? && !op.ConstOp?
    ensures FromCode(Code(op)) == Some(op)
  {}

  lemma ConstDecodes(ty: Type)
    ensures FromCode(Code(ConstOp(ty))) == Some(ConstOp(ty))
  {}

  lemma IndexDecodes(form: IndexForm)
    ensures FromCode(IndexCode(form)) == Some(IndexOp(form))
  {}

  lemma SimpleDecodes(i: Instr)
    requires Exists(SimpleOp(i))
    ensures FromCode(SimpleCode(i)) == Some(SimpleOp(i))
  {
    match i
    case Compare(ty, op) => assert REL_OPS[RelIndex(op)] == op;
    case Binary(ty, op) => if BinIndex(op) < 7 { assert BIN_OPS[BinIndex(op)] == op; }
    case _ =>
  }

  lemma LoadDecodes(acc: Access)
    requires acc in LOADS
    ensures 0x28 <= LoadCode(acc) < 0x36 && LOADS[LoadCode(acc) - 0x28] == acc
        && FromCode(LoadCode(acc)) == Some(LoadOp(acc))
  {}

  lemma StoreDecodes(acc: Access)
    requires acc in STORES
    ensures 0x36 <= StoreCode(acc) < 0x3f && STORES[StoreCode(acc) - 0x36] == acc
        && FromCode(StoreCode(acc)) == Some(StoreOp(acc))
  {}
}

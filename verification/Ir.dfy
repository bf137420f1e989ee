/** The expression trees shared by every pass: what the binary reader builds, the
    naming passes rewrite, the visitor walks and the C writer lowers. */
module Ir {

  datatype Option<+T> = None | Some(value: T) {
    predicate IsFailure() { None? }

    function PropagateFailure<U>(): Option<U>
      requires None?
    {
      None
    }

    function Extract(): T
      requires Some?
    {
      value
    }
  }

  datatype Type = I32 | I64 | F32 | F64

  /** A typed constant; `bits` is the unsigned reading of its representation. */
  datatype Value = Value(ty: Type, bits: nat)

  datatype BinOp = Add | Sub | Mul | DivS | DivU | RemS | RemU | And | Or | Xor | Shl | ShrS | ShrU | Rotl | Rotr

  datatype RelOp = Eq | Ne | LtS | LtU | GtS | GtU | LeS | LeU | GeS | GeU

  /** The shape of a plain memory access: result type, bytes touched, sign extension. */
  datatype Access = Access(ty: Type, bytes: nat, signed: bool)

  /** A branch target, by depth (binary format) or by label name (text format). */
  datatype Var = Index(depth: nat) | Name(name: string)

  datatype FuncType = FuncType(params: seq<Type>, results: seq<Type>)

  /** A block signature; `typeIndex` is set when it was given as a type index. */
  datatype BlockDecl = BlockDecl(sig: FuncType, typeIndex: Option<nat>)

  /** Instructions without nested instructions or branches. */
  datatype Instr =
    | Const(v: Value)
    | Binary(ty: Type, bop: BinOp)
    | Compare(ty: Type, rop: RelOp)
    | Eqz(ty: Type)
    | Drop
    | Select
    | Nop
    | LocalGet(local: nat)
    | LocalSet(local: nat)
    | LocalTee(local: nat)
    | GlobalGet(global: nat)
    | GlobalSet(global: nat)
    | Load(acc: Access, align: nat, memidx: nat, offset: nat)
    | Store(acc: Access, align: nat, memidx: nat, offset: nat)
    | Call(func: nat)

  datatype TryKind = PlainTry | CatchTry | DelegateTry

  /** A catch clause; no tag means catch_all. */
  datatype Catch = Catch(tag: Option<nat>, exprs: seq<Expr>)

  datatype Expr =
    | Plain(i: Instr)
    | Br(target: Var)
    | BrIf(target: Var)
    | BrTable(targets: seq<Var>, default: Var)
    | Return
    | Unreachable
    | Throw(tag: nat)
    | Rethrow(target: Var)
    | Block(name: string, decl: BlockDecl, body: seq<Expr>)
    | Loop(name: string, decl: BlockDecl, body: seq<Expr>)
    | If(name: string, decl: BlockDecl, thn: seq<Expr>, els: seq<Expr>)
    | Try(name: string, decl: BlockDecl, body: seq<Expr>, kind: TryKind, catches: seq<Catch>, delegate: Var)

}

/** WebAssembly structured control flow as a big-step semantics with fuel, after
    section 4.4 of the WebAssembly Core Specification and the exception-handling
    proposal's try/catch/delegate rules. Fuel bounds only the taken loop back edges.
    Callees are an arbitrary function `Host`; a call may return, throw or trap. */
module Wasm {
  import opened Ir
  import opened Numbers

  // ----- numbers (section 4.3.2) -----

  function Bits(ty: Type): nat {
    if ty == I32 || ty == F32 then 32 else 64
  }

  function Modulus(ty: Type): nat {
    if ty == I32 || ty == F32 then 0x1_0000_0000 else 0x1_0000_0000_0000_0000
  }

  /** The two's complement reading of an unsigned representation. */
  function Signed(ty: Type, x: int): int {
    var r := x % Modulus(ty);
    if r >= Modulus(ty) / 2 then r - Modulus(ty) else r
  }

  /** The unsigned representation of an integer, modulo the type's width. */
  function Wrap(ty: Type, x: int): nat {
    x % Modulus(ty)
  }

  // Multiplication, division and shifts are written as iteration, which keeps nonlinear
  // arithmetic out of every proof about code that contains them.

  function Times(x: nat, y: nat): nat {
    if y == 0 then 0 else x + Times(x, y - 1)
  }

  function Quotient(x: nat, y: nat): nat
    requires y != 0
  {
    if x < y then 0 else 1 + Quotient(x - y, y)
  }

  function Remainder(x: nat, y: nat): nat
    requires y != 0
  {
    if x < y then x else Remainder(x - y, y)
  }

  function ShiftLeft(x: nat, k: nat): nat
    decreases k
  {
    if k == 0 then x else ShiftLeft(2 * x, k - 1)
  }

  /** An arithmetic right shift, rounding toward minus infinity. */
  function ShiftRight(x: int, k: nat): int
    decreases k
  {
    if k == 0 then x else ShiftRight(x / 2, k - 1)
  }

  function ShiftRightU(x: nat, k: nat): nat
    decreases k
  {
    if k == 0 then x else ShiftRightU(x / 2, k - 1)
  }

  function AndBits(x: nat, y: nat): nat
    decreases x
  {
    if x == 0 then 0 else (if x % 2 == 1 && y % 2 == 1 then 1 else 0) + 2 * AndBits(x / 2, y / 2)
  }

  function OrBits(x: nat, y: nat): nat
    decreases x
  {
    if x == 0 then y else (if x % 2 == 1 || y % 2 == 1 then 1 else 0) + 2 * OrBits(x / 2, y / 2)
  }

  function XorBits(x: nat, y: nat): nat
    decreases x
  {
    if x == 0 then y else (if x % 2 != y % 2 then 1 else 0) + 2 * XorBits(x / 2, y / 2)
  }

  /** Rotation by one place at a time: the bit that leaves at one end enters at the other. */
  function RotateLeft(ty: Type, x: nat, k: nat): nat
    decreases k
  {
    if k == 0 then x else RotateLeft(ty, 2 * x % Modulus(ty) + 2 * x / Modulus(ty), k - 1)
  }

  function RotateRight(ty: Type, x: nat, k: nat): nat
    decreases k
  {
    if k == 0 then x else RotateRight(ty, x / 2 + if x % 2 == 1 then Modulus(ty) / 2 else 0, k - 1)
  }

  lemma {:induction false} TimesIsProduct(x: nat, y: nat)
    ensures Times(x, y) == x * y
    decreases y
  {
    if y > 0 { TimesIsProduct(x, y - 1); }
  }

  lemma {:induction false} QuotientIsDivision(x: nat, y: nat)
    requires y != 0
    ensures Quotient(x, y) == x / y && Remainder(x, y) == x % y
  {
    QuotientRemainder(x, y);
    var q, r := Quotient(x, y), Remainder(x, y);
    DivisionUnique(x, y, q, r);
  }

  lemma {:induction false} QuotientRemainder(x: nat, y: nat)
    requires y != 0
    ensures x == Quotient(x, y) * y + Remainder(x, y) && Remainder(x, y) < y
  {
    if x >= y { QuotientRemainder(x - y, y); }
  }

  lemma DivisionUnique(x: nat, y: nat, q: nat, r: nat)
    requires y != 0 && x == q * y + r && r < y
    ensures x / y == q && x % y == r
  {
    var d := x / y - q;
    assert x == y * (x / y) + x % y;
    assert y * d == r - x % y;
    MultipleAtLeast(y, d);
  }

  lemma MultipleAtLeast(y: int, d: int)
    requires y > 0
    ensures d > 0 ==> y * d >= y
    ensures d < 0 ==> y * d <= -y
  {}

  function Abs(a: int): nat { if a < 0 then -a else a }

  /** Division rounding toward zero. */
  function TruncDiv(a: int, b: int): int
    requires b != 0
  {
    var q: int := Quotient(Abs(a), Abs(b));
    if (a < 0) == (b < 0) then q else -q
  }

  function TruncRem(a: int, b: int): int
    requires b != 0
  {
    var r: int := Remainder(Abs(a), Abs(b));
    if a < 0 then -r else r
  }

  /** A numeric operator; None is a trap. */
  function BinResult(ty: Type, op: BinOp, x: nat, y: nat): Option<nat> {
    match op
    case Add => Some(Wrap(ty, x + y))
    case Sub => Some(Wrap(ty, x - y))
    case Mul => Some(Wrap(ty, Times(x, y)))
    case DivU => if y == 0 then None else Some(Quotient(x, y))
    case RemU => if y == 0 then None else Some(Remainder(x, y))
    case DivS =>
      if Signed(ty, y) == 0 then None
      else if TruncDiv(Signed(ty, x), Signed(ty, y)) == Modulus(ty) / 2 then None
      else Some(Wrap(ty, TruncDiv(Signed(ty, x), Signed(ty, y))))
    case RemS =>
      if Signed(ty, y) == 0 then None else Some(Wrap(ty, TruncRem(Signed(ty, x), Signed(ty, y))))
    case Shl => Some(Wrap(ty, ShiftLeft(x, y % Bits(ty))))
    case ShrU => Some(ShiftRightU(x, y % Bits(ty)))
    case ShrS => Some(Wrap(ty, ShiftRight(Signed(ty, x), y % Bits(ty))))
    case And => Some(AndBits(x, y))
    case Or => Some(OrBits(x, y))
    case Xor => Some(XorBits(x, y))
    case Rotl => Some(RotateLeft(ty, Wrap(ty, x), y % Bits(ty)))
    case Rotr => Some(RotateRight(ty, Wrap(ty, x), y % Bits(ty)))
  }

  function RelResult(ty: Type, op: RelOp, x: nat, y: nat): bool {
    match op
    case Eq => x == y
    case Ne => x != y
    case LtU => x < y
    case GtU => x > y
    case LeU => x <= y
    case GeU => x >= y
    case LtS => Signed(ty, x) < Signed(ty, y)
    case GtS => Signed(ty, x) > Signed(ty, y)
    case LeS => Signed(ty, x) <= Signed(ty, y)
    case GeS => Signed(ty, x) >= Signed(ty, y)
  }

  function BoolValue(b: bool): Value {
    Value(I32, if b then 1 else 0)
  }

  // ----- memory -----

  /** The unsigned little-endian reading of a byte string. */
  function LittleEndian(bytes: seq<nat>): nat {
    if bytes == [] then 0 else bytes[0] + 256 * LittleEndian(bytes[1..])
  }

  function ToBytes(x: nat, n: nat): seq<nat> {
    if n == 0 then [] else [x % 256] + ToBytes(x / 256, n - 1)
  }

  /** The value a load of shape `acc` makes of `raw`. */
  function Extend(acc: Access, raw: nat): nat {
    var m := Pow2(8 * acc.bytes);
    if acc.signed && raw >= m / 2 then (raw - m) % Modulus(acc.ty) else raw % Modulus(acc.ty)
  }

  function ReadMem(mem: seq<nat>, acc: Access, ea: nat): Option<Value> {
    if ea + acc.bytes > |mem| then None
    else Some(Value(acc.ty, Extend(acc, LittleEndian(mem[ea..ea + acc.bytes]))))
  }

  function WriteMem(mem: seq<nat>, acc: Access, ea: nat, x: nat): (r: Option<seq<nat>>) {
    if ea + acc.bytes > |mem| then None
    else Some(mem[..ea] + ToBytes(x, acc.bytes) + mem[ea + acc.bytes..])
  }

  // ----- machine states -----

  datatype World = World(globals: seq<Value>, mems: seq<seq<nat>>) {
    function Mem(i: nat): seq<nat> { if i < |mems| then mems[i] else [] }
    function SetMem(i: nat, mem: seq<nat>): World { if i < |mems| then this.(mems := mems[i := mem]) else this }
  }

  datatype MemEvent = Loaded(addr: nat) | Stored(addr: nat)

  /** `log` is the trace of attempted memory accesses, with the address operand of each. */
  datatype Machine = Machine(stack: seq<Value>, locals: seq<Value>, world: World, log: seq<MemEvent>)

  datatype Exn = Exn(tag: nat, args: seq<Value>)

  datatype HostResult = Returned(vals: seq<Value>, w: World) | Threw(x: Exn, w: World) | HostTrap(w: World)

  type Host = (nat, seq<Value>, World) -> HostResult

  /** What a function body is typed against. */
  datatype Env = Env(funcs: seq<FuncType>, tags: seq<seq<Type>>, locals: seq<Type>, globals: seq<Type>,
      results: seq<Type>)

  /** Callees return as many values, and throw as many arguments, as declared. */
  ghost predicate HostOk(env: Env, host: Host) {
    forall f: nat, args: seq<Value>, w: World {:trigger host(f, args, w)} ::
      f < |env.funcs| ==>
        match host(f, args, w)
        case Returned(vs, _) => |vs| == |env.funcs[f].results|
        case Threw(x, _) => x.tag < |env.tags| && |x.args| == |env.tags[x.tag]|
        case HostTrap(_) => true
  }

  datatype Target = ToLabel(name: string) | ToFunc

  function TargetOf(v: Var): Target {
    match v
    case Name(n) => ToLabel(n)
    case Index(_) => ToFunc
  }

  datatype Outcome =
    | Next(m: Machine)
    | Branch(to: Target, m: Machine)
    | Raise(x: Exn, m: Machine)
    | Delegated(to: Target, x: Exn, m: Machine)
    | Trap(m: Machine)
    | OutOfFuel(m: Machine)

  // Operand-stack access; the defaults are never reached by typed code.

  function TopN<T>(s: seq<T>, n: nat): seq<T> { if n <= |s| then s[|s| - n..] else s }

  function DropN<T>(s: seq<T>, n: nat): seq<T> { if n <= |s| then s[..|s| - n] else [] }

  /** The operand `i` places from the top. */
  function Peek(s: seq<Value>, i: nat): Value { if i < |s| then s[|s| - 1 - i] else Value(I32, 0) }

  function At(s: seq<Value>, i: nat): Value { if i < |s| then s[i] else Value(I32, 0) }

  function SetAt(s: seq<Value>, i: nat, v: Value): seq<Value> { if i < |s| then s[i := v] else s }

  // ----- plain instructions -----

  function Push(m: Machine, drop: nat, v: Value): Outcome {
    Next(m.(stack := DropN(m.stack, drop) + [v]))
  }

  function EvalInstr(env: Env, host: Host, i: Instr, m: Machine): Outcome {
    var s := m.stack;
    match i
    case Const(v) => Push(m, 0, v)
    case Binary(ty, op) =>
      (match BinResult(ty, op, Peek(s, 1).bits, Peek(s, 0).bits)
       case None => Trap(m)
       case Some(x) => Push(m, 2, Value(ty, x)))
    case Compare(ty, op) => Push(m, 2, BoolValue(RelResult(ty, op, Peek(s, 1).bits, Peek(s, 0).bits)))
    case Eqz(_) => Push(m, 1, BoolValue(Peek(s, 0).bits == 0))
    case Drop => Next(m.(stack := DropN(s, 1)))
    case Select => Push(m, 3, if Peek(s, 0).bits != 0 then Peek(s, 2) else Peek(s, 1))
    case Nop => Next(m)
    case LocalGet(x) => Push(m, 0, At(m.locals, x))
    case LocalSet(x) => Next(m.(stack := DropN(s, 1), locals := SetAt(m.locals, x, Peek(s, 0))))
    case LocalTee(x) => Next(m.(locals := SetAt(m.locals, x, Peek(s, 0))))
    case GlobalGet(x) => Push(m, 0, At(m.world.globals, x))
    case GlobalSet(x) =>
      Next(m.(stack := DropN(s, 1), world := m.world.(globals := SetAt(m.world.globals, x, Peek(s, 0)))))
    case Load(acc, _, k, offset) =>
      var a := Peek(s, 0).bits;
      var m1 := m.(log := m.log + [Loaded(a)]);
      (match ReadMem(m.world.Mem(k), acc, a + offset)
       case None => Trap(m1)
       case Some(v) => Push(m1, 1, v))
    case Store(acc, _, k, offset) =>
      var a := Peek(s, 1).bits;
      var m1 := m.(log := m.log + [Stored(a)]);
      (match WriteMem(m.world.Mem(k), acc, a + offset, Peek(s, 0).bits)
       case None => Trap(m1)
       case Some(mem) => Next(m1.(stack := DropN(s, 2), world := m.world.SetMem(k, mem))))
    case Call(f) =>
      var n := if f < |env.funcs| then |env.funcs[f].params| else 0;
      AfterCall(host(f, TopN(s, n), m.world), n, m)
  }

  /** A callee that took `n` operands has ended with `r`. */
  function AfterCall(r: HostResult, n: nat, m: Machine): Outcome {
    match r
    case Returned(vs, w) => Next(m.(stack := DropN(m.stack, n) + vs, world := w))
    case Threw(x, w) => Raise(x, m.(world := w))
    case HostTrap(w) => Trap(m.(world := w))
  }

  // ----- structured control -----

  /** Leave a block whose label has `arity` values and which began above `rest`. */
  function Exit(o: Outcome, name: string, rest: seq<Value>, arity: nat): Outcome {
    match o
    case Next(m) => Next(m.(stack := rest + m.stack))
    case Branch(to, m) =>
      if to == ToLabel(name) then Next(m.(stack := rest + TopN(m.stack, arity))) else o
    case Delegated(to, x, m) => if to == ToLabel(name) then Raise(x, m) else o
    case _ => o
  }

  type Caught = map<string, Exn>

  function EvalList(env: Env, host: Host, es: seq<Expr>, caught: Caught, m: Machine, fuel: nat): Outcome
    decreases fuel, es, 0
  {
    if es == [] then Next(m)
    else
      match Eval(env, host, es[0], caught, m, fuel)
      case Next(m1) => EvalList(env, host, es[1..], caught, m1, fuel)
      case o => o
  }

  function Eval(env: Env, host: Host, e: Expr, caught: Caught, m: Machine, fuel: nat): Outcome
    decreases fuel, e, 1
  {
    match e
    case Plain(i) => EvalInstr(env, host, i, m)
    case Br(v) => Branch(TargetOf(v), m)
    case BrIf(v) =>
      var m1 := m.(stack := DropN(m.stack, 1));
      if Peek(m.stack, 0).bits != 0 then Branch(TargetOf(v), m1) else Next(m1)
    case BrTable(vs, d) =>
      var k := Peek(m.stack, 0).bits;
      Branch(TargetOf(if k < |vs| then vs[k] else d), m.(stack := DropN(m.stack, 1)))
    case Return => Branch(ToFunc, m)
    case Unreachable => Trap(m)
    case Throw(t) =>
      var n := if t < |env.tags| then |env.tags[t]| else 0;
      Raise(Exn(t, TopN(m.stack, n)), m.(stack := DropN(m.stack, n)))
    case Rethrow(v) =>
      if v.Name? && v.name in caught then Raise(caught[v.name], m) else Trap(m)
    case Block(l, d, body) =>
      var n := |d.sig.params|;
      Exit(EvalList(env, host, body, caught, m.(stack := TopN(m.stack, n)), fuel),
           l, DropN(m.stack, n), |d.sig.results|)
    case Loop(l, d, body) =>
      var n := |d.sig.params|;
      Exit(EvalLoop(env, host, e, caught, m.(stack := TopN(m.stack, n)), fuel),
           l, DropN(m.stack, n), n)
    case If(l, d, thn, els) =>
      var n := |d.sig.params|;
      var m1 := m.(stack := DropN(m.stack, 1));
      var m2 := m1.(stack := TopN(m1.stack, n));
      Exit(if Peek(m.stack, 0).bits != 0 then EvalList(env, host, thn, caught, m2, fuel)
           else EvalList(env, host, els, caught, m2, fuel),
           l, DropN(m1.stack, n), |d.sig.results|)
    case Try(l, d, body, kind, catches, delegate) =>
      var n := |d.sig.params|;
      var o := EvalList(env, host, body, caught, m.(stack := TopN(m.stack, n)), fuel);
      var rest := DropN(m.stack, n);
      (match kind
       case PlainTry => Exit(o, l, rest, |d.sig.results|)
       case DelegateTry =>
         (match Exit(o, l, rest, |d.sig.results|)
          case Raise(x, m1) => Delegated(TargetOf(delegate), x, m1)
          case o1 => o1)
       case CatchTry =>
         (match Exit(o, l, rest, |d.sig.results|)
          case Raise(x, m1) =>
            Exit(EvalHandler(env, host, catches, l, x, caught, m1, fuel), l, rest, |d.sig.results|)
          case o1 => o1))
  }

  /** Run the first clause of `catches` that takes `x`, or pass `x` on. */
  function EvalHandler(env: Env, host: Host, catches: seq<Catch>, l: string, x: Exn, caught: Caught, m: Machine,
      fuel: nat): Outcome
    decreases fuel, catches, 0
  {
    if catches == [] then Raise(x, m)
    else
      var c := catches[0];
      if c.tag == None then EvalList(env, host, c.exprs, caught[l := x], m.(stack := []), fuel)
      else if c.tag == Some(x.tag) then EvalList(env, host, c.exprs, caught[l := x], m.(stack := x.args), fuel)
      else EvalHandler(env, host, catches[1..], l, x, caught, m, fuel)
  }

  /** Iterate a loop body while it branches back to the loop's own label. */
  function EvalLoop(env: Env, host: Host, e: Expr, caught: Caught, m: Machine, fuel: nat): Outcome
    requires e.Loop?
    decreases fuel, e, 0
  {
    match EvalList(env, host, e.body, caught, m, fuel)
    case Branch(to, m1) =>
      if to == ToLabel(e.name) then
        if fuel == 0 then OutOfFuel(m1)
        else EvalLoop(env, host, e, caught, m1.(stack := TopN(m1.stack, |e.decl.sig.params|)), fuel - 1)
      else Branch(to, m1)
    case o => o
  }

  // ----- functions -----

  datatype Result =
    | Values(vals: seq<Value>, m: Machine)
    | Uncaught(x: Exn, m: Machine)
    | Trapped(m: Machine)
    | Exhausted(m: Machine)

  /** Invoke a body: falling off the end and branching to the function label both return. */
  function Invoke(env: Env, host: Host, body: seq<Expr>, m: Machine, fuel: nat): Result {
    var n := |env.results|;
    match EvalList(env, host, body, map[], m.(stack := []), fuel)
    case Next(m1) => Values(TopN(m1.stack, n), m1)
    case Branch(_, m1) => Values(TopN(m1.stack, n), m1)
    case Raise(x, m1) => Uncaught(x, m1)
    case Delegated(_, x, m1) => Uncaught(x, m1)
    case Trap(m1) => Trapped(m1)
    case OutOfFuel(m1) => Exhausted(m1)
  }

  // ----- more fuel changes nothing -----

  lemma {:induction false} ListMoreFuel(env: Env, host: Host, es: seq<Expr>, caught: Caught, m: Machine, f1: nat,
      f2: nat)
    requires f1 <= f2 && !EvalList(env, host, es, caught, m, f1).OutOfFuel?
    ensures EvalList(env, host, es, caught, m, f2) == EvalList(env, host, es, caught, m, f1)
    decreases f1, es, 0
  {
    if es != [] {
      MoreFuel(env, host, es[0], caught, m, f1, f2);
      var o := Eval(env, host, es[0], caught, m, f1);
      if o.Next? { ListMoreFuel(env, host, es[1..], caught, o.m, f1, f2); }
    }
  }

  lemma {:induction false} MoreFuel(env: Env, host: Host, e: Expr, caught: Caught, m: Machine, f1: nat, f2: nat)
    requires f1 <= f2 && !Eval(env, host, e, caught, m, f1).OutOfFuel?
    ensures Eval(env, host, e, caught, m, f2) == Eval(env, host, e, caught, m, f1)
    decreases f1, e, 1
  {
    hide EvalList, EvalHandler, EvalLoop, EvalInstr;
    match e
    case Block(_, d, body) => ListMoreFuel(env, host, body, caught, m.(stack := TopN(m.stack, |d.sig.params|)), f1, f2);
    case Loop(_, d, _) => LoopMoreFuel(env, host, e, caught, m.(stack := TopN(m.stack, |d.sig.params|)), f1, f2);
    case If(_, d, thn, els) =>
      var m1 := m.(stack := DropN(m.stack, 1));
      var m2 := m1.(stack := TopN(m1.stack, |d.sig.params|));
      if Peek(m.stack, 0).bits != 0 { ListMoreFuel(env, host, thn, caught, m2, f1, f2); }
      else { ListMoreFuel(env, host, els, caught, m2, f1, f2); }
    case Try(l, d, body, kind, catches, _) =>
      var m1 := m.(stack := TopN(m.stack, |d.sig.params|));
      ListMoreFuel(env, host, body, caught, m1, f1, f2);
      var o := Exit(EvalList(env, host, body, caught, m1, f1), l, DropN(m.stack, |d.sig.params|), |d.sig.results|);
      if kind == CatchTry && o.Raise? { HandlerMoreFuel(env, host, catches, l, o.x, caught, o.m, f1, f2); }
    case _ =>
  }

  lemma {:induction false} HandlerMoreFuel(env: Env, host: Host, cs: seq<Catch>, l: string, x: Exn, caught: Caught,
      m: Machine, f1: nat, f2: nat)
    requires f1 <= f2 && !EvalHandler(env, host, cs, l, x, caught, m, f1).OutOfFuel?
    ensures EvalHandler(env, host, cs, l, x, caught, m, f2) == EvalHandler(env, host, cs, l, x, caught, m, f1)
    decreases f1, cs, 0
  {
    hide EvalList;
    if cs != [] {
      var c := cs[0];
      if c.tag == None { ListMoreFuel(env, host, c.exprs, caught[l := x], m.(stack := []), f1, f2); }
      else if c.tag == Some(x.tag) { ListMoreFuel(env, host, c.exprs, caught[l := x], m.(stack := x.args), f1, f2); }
      else { HandlerMoreFuel(env, host, cs[1..], l, x, caught, m, f1, f2); }
    }
  }

  lemma {:induction false} LoopMoreFuel(env: Env, host: Host, e: Expr, caught: Caught, m: Machine, f1: nat, f2: nat)
    requires e.Loop? && f1 <= f2 && !EvalLoop(env, host, e, caught, m, f1).OutOfFuel?
    ensures EvalLoop(env, host, e, caught, m, f2) == EvalLoop(env, host, e, caught, m, f1)
    decreases f1, e, 0
  {
    hide EvalList;
    ListMoreFuel(env, host, e.body, caught, m, f1, f2);
    var o := EvalList(env, host, e.body, caught, m, f1);
    if o.Branch? && o.to == ToLabel(e.name) && f1 > 0 {
      LoopMoreFuel(env, host, e, caught, o.m.(stack := TopN(o.m.stack, |e.decl.sig.params|)), f1 - 1, f2 - 1);
    }
  }

  /** A body has one result: whatever fuel it ends with, it ends the same way. */
  lemma ResultUnique(env: Env, host: Host, body: seq<Expr>, m: Machine, f1: nat, f2: nat)
    requires !Invoke(env, host, body, m, f1).Exhausted? && !Invoke(env, host, body, m, f2).Exhausted?
    ensures Invoke(env, host, body, m, f1) == Invoke(env, host, body, m, f2)
  {
    ListMoreFuel(env, host, body, map[], m.(stack := []), if f1 <= f2 then f1 else f2, if f1 <= f2 then f2 else f1);
  }
}

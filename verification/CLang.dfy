/** The C that the writer emits, as statement lists, and a small-step machine for it.
    A machine state is the code still to run; `goto` resumes after the label wherever in
    the function the label stands, and a jump buffer records the code to resume. */
module CLang {
  import opened Ir
  import opened Wasm

  datatype COp = PlusOp | MinusOp | TimesOp | AndOp | OrOp | XorOp | ShlOp | ShrOp

  datatype CmpOp = EqOp | NeOp | LtOp | GtOp | LeOp | GeOp

  /** Stack variables are named by their height and type. */
  datatype CExpr =
    | SlotX(h: int, t: Type)
    | LitX(v: Value)
    | LocalX(local: nat)
    | GlobalX(global: nat)
    | InfixX(op: COp, ty: Type, a: CExpr, b: CExpr)    // a op b on the unsigned type
    | SignedShrX(ty: Type, a: CExpr, b: CExpr)         // (T)((ST)a >> b)
    | CmpX(cop: CmpOp, a: CExpr, b: CExpr)              // a op b on the unsigned type
    | SignedCmpX(cop: CmpOp, ty: Type, a: CExpr, b: CExpr)
    | MaskX(a: CExpr, mask: nat)                       // a & mask, for mask + 1 a power of two
    | DivUX(ty: Type, a: CExpr, b: CExpr)              // DIV_U(a, b)
    | RemUX(ty: Type, a: CExpr, b: CExpr)
    | DivSX(ty: Type, a: CExpr, b: CExpr)              // I32_DIV_S / I64_DIV_S
    | RemSX(ty: Type, a: CExpr, b: CExpr)
    | RotlX(ty: Type, a: CExpr, b: CExpr)              // I32_ROTL / I64_ROTL
    | RotrX(ty: Type, a: CExpr, b: CExpr)
    | NotX(a: CExpr)
    | CondX(c: CExpr, a: CExpr, b: CExpr)

  datatype CLabel = UserLabel(name: string) | CatchLabel(name: string) | FuncLabel

  datatype Stream = Stdout | LogFile

  datatype Stmt =
    | Assign(h: int, t: Type, e: CExpr)
    | SetLocal(local: nat, e: CExpr)
    | SetGlobal(global: nat, e: CExpr)
    | LoadMem(h: int, t: Type, acc: Access, memidx: nat, addr: CExpr, offset: nat)
    | StoreMem(acc: Access, memidx: nat, addr: CExpr, offset: nat, e: CExpr)
    | Print(to: Stream, store: bool, addr: CExpr)
    | CallFunc(func: nat, args: seq<(int, Type)>, dsts: seq<(int, Type)>)
    | IfElse(c: CExpr, thn: Code, els: Code)
    | IfTag(tag: nat, thn: Code, els: Code)
    | Switch(c: CExpr, cases: Cases)
    | LabelHere(l: CLabel, closed: bool)                // `l:;` or, not closed, the prefix `l:`
    | Goto(l: CLabel)
    | Abort
    | ReturnSlots(srcs: seq<(int, Type)>)
    | IfTry(name: string, thn: Code, els: Code)
        // { name_outer_target = get_unwind_target(); if (!wasm_rt_try(name_unwind_target)) thn else els }
    | UnwindTo(name: string)                             // set_unwind_target(&name_unwind_target)
    | UnwindOuter(name: string)                          // set_unwind_target(name_outer_target)
    | LoadExn(tag: nat, srcs: seq<(int, Type)>)
    | SaveExn(name: string)
    | ReloadExn(name: string)
    | UnpackExn(dsts: seq<(int, Type)>)
    | RtThrow

  datatype Code = Nil | Cons(hd: Stmt, tl: Code)

  datatype Cases = DefaultCase(code: Code) | Case(code: Code, rest: Cases)

  function Append(a: Code, b: Code): Code {
    match a
    case Nil => b
    case Cons(s, t) => Cons(s, Append(t, b))
  }

  lemma AppendAssoc(a: Code, b: Code, c: Code)
    ensures Append(Append(a, b), c) == Append(a, Append(b, c))
  {}

  lemma AppendNil(a: Code)
    ensures Append(a, Nil) == a
  {}

  function One(s: Stmt): Code { Cons(s, Nil) }

  // ----- the text -----

  /** How many statements there are, and whether a label prefix hangs at the end with no
      statement behind it, which C before C23 refuses in front of a closing brace. */
  datatype Shape = Shape(n: nat, hangs: bool)

  function Join(a: Shape, b: Shape): Shape {
    Shape(a.n + b.n, b.hangs || (b.n == 0 && a.hangs))
  }

  predicate IsPrefix(s: Stmt) { s.LabelHere? && !s.closed }

  function StmtShape(s: Stmt): Shape { if IsPrefix(s) then Shape(0, true) else Shape(1, false) }

  function ShapeOf(c: Code): Shape {
    match c
    case Nil => Shape(0, false)
    case Cons(s, t) => Join(StmtShape(s), ShapeOf(t))
  }

  lemma {:induction false} ShapeAppend(a: Code, b: Code)
    ensures ShapeOf(Append(a, b)) == Join(ShapeOf(a), ShapeOf(b))
  {
    hide Join, StmtShape;
    match a
    case Nil => JoinNothing(ShapeOf(b));
    case Cons(s, t) =>
      ShapeAppend(t, b);
      JoinAssoc(StmtShape(s), ShapeOf(t), ShapeOf(b));
  }

  lemma JoinNothing(a: Shape)
    ensures Join(Shape(0, false), a) == a && Join(a, Shape(0, false)) == a
  {}

  lemma JoinAssoc(a: Shape, b: Shape, c: Shape)
    ensures Join(Join(a, b), c) == Join(a, Join(b, c))
  {}

  /** What an `else` without braces governs of the code behind it: one statement, with the
      label prefixes in front of it. */
  function ElseBound(c: Code): Code {
    match c
    case Nil => Nil
    case Cons(s, t) => if IsPrefix(s) then Cons(s, ElseBound(t)) else One(s)
  }

  /** What is left over behind it. */
  function ElseLeft(c: Code): Code {
    match c
    case Nil => Nil
    case Cons(s, t) => if IsPrefix(s) then ElseLeft(t) else t
  }

  /** The two make up the code; nothing is left over exactly if it is at most one statement
      that nothing hangs behind. */
  lemma {:induction false} ElseSplits(c: Code)
    ensures Append(ElseBound(c), ElseLeft(c)) == c
    ensures ShapeOf(c).n >= 1 ==> (ElseLeft(c) == Nil <==> ShapeOf(c) == Shape(1, false))
    ensures ShapeOf(c).n >= 1 ==> ShapeOf(c) == Join(Shape(1, false), ShapeOf(ElseLeft(c)))
    decreases c
  {
    match c
    case Nil =>
    case Cons(s, t) =>
      if IsPrefix(s) { ElseSplits(t); }
      else if t != Nil { NothingWritten(t); }
  }

  lemma NothingWritten(c: Code)
    ensures c == Nil <==> ShapeOf(c) == Shape(0, false)
  {
    match c
    case Nil =>
    case Cons(s, t) =>
      var a, b := StmtShape(s), ShapeOf(t);
      assert a.n >= 1 || a.hangs;
      hide ShapeOf, StmtShape;
      assert Join(a, b) != Shape(0, false);
  }

  // ----- expressions -----

  datatype Unwind = Caller | Buffer(name: string)

  datatype Record = Record(store: bool, pointer: nat)

  datatype Store = Store(
    slots: map<(int, Type), Value>, locals: seq<Value>, world: World,
    out: seq<Record>, file: seq<Record>,
    unwind: Unwind, outer: map<string, Unwind>, bufs: map<string, Code>,
    exn: Exn, saved: map<string, Exn>)

  function SlotValue(s: Store, h: int, t: Type): Value {
    if (h, t) in s.slots then s.slots[(h, t)] else Value(t, 0)
  }

  function SlotValues(s: Store, srcs: seq<(int, Type)>): (vs: seq<Value>)
    ensures |vs| == |srcs|
  {
    if srcs == [] then [] else [SlotValue(s, srcs[0].0, srcs[0].1)] + SlotValues(s, srcs[1..])
  }

  /** The assignments `dsts[0] = vs[0]; dsts[1] = vs[1]; ...` in this order. */
  function SetSlots(s: Store, dsts: seq<(int, Type)>, vs: seq<Value>): Store
    decreases |dsts|
  {
    if dsts == [] || vs == [] then s
    else SetSlots(s.(slots := s.slots[dsts[0] := vs[0]]), dsts[1..], vs[1..])
  }

  function Infix(op: COp, ty: Type, x: nat, y: nat): Value {
    match op
    case PlusOp => Value(ty, Wrap(ty, x + y))
    case MinusOp => Value(ty, Wrap(ty, x - y))
    case TimesOp => Value(ty, Wrap(ty, Times(x, y)))
    case AndOp => Value(ty, AndBits(x, y))
    case OrOp => Value(ty, OrBits(x, y))
    case XorOp => Value(ty, XorBits(x, y))
    case ShlOp => Value(ty, Wrap(ty, ShiftLeft(x, y)))
    case ShrOp => Value(ty, ShiftRightU(x, y))
  }

  function Cmp(op: CmpOp, x: int, y: int): Value {
    match op
    case EqOp => BoolValue(x == y)
    case NeOp => BoolValue(x != y)
    case LtOp => BoolValue(x < y)
    case GtOp => BoolValue(x > y)
    case LeOp => BoolValue(x <= y)
    case GeOp => BoolValue(x >= y)
  }

  /** The other shift count of a rotation, `(mask - y + 1) & mask` on the unsigned type. */
  function OtherCount(ty: Type, y: nat): nat {
    Wrap(ty, Bits(ty) - 1 - y + 1) % Bits(ty)
  }

  /** `(x << (y & mask)) | (x >> ((mask - y + 1) & mask))` */
  function RotlMacro(ty: Type, x: nat, y: nat): nat {
    OrBits(Wrap(ty, ShiftLeft(x, y % Bits(ty))), ShiftRightU(x, OtherCount(ty, y)))
  }

  function RotrMacro(ty: Type, x: nat, y: nat): nat {
    OrBits(ShiftRightU(x, y % Bits(ty)), Wrap(ty, ShiftLeft(x, OtherCount(ty, y))))
  }

  /** None is a trap raised inside a macro. */
  function EvalX(s: Store, e: CExpr): Option<Value> {
    match e
    case SlotX(h, t) => Some(SlotValue(s, h, t))
    case LitX(v) => Some(v)
    case LocalX(i) => Some(At(s.locals, i))
    case GlobalX(i) => Some(At(s.world.globals, i))
    case InfixX(op, ty, a, b) =>
      (match (EvalX(s, a), EvalX(s, b))
       case (Some(x), Some(y)) => Some(Infix(op, ty, x.bits, y.bits))
       case _ => None)
    case SignedShrX(ty, a, b) =>
      (match (EvalX(s, a), EvalX(s, b))
       case (Some(x), Some(y)) => Some(Value(ty, Wrap(ty, ShiftRight(Signed(ty, x.bits), y.bits))))
       case _ => None)
    case CmpX(op, a, b) =>
      (match (EvalX(s, a), EvalX(s, b))
       case (Some(x), Some(y)) => Some(Cmp(op, x.bits, y.bits))
       case _ => None)
    case SignedCmpX(op, ty, a, b) =>
      (match (EvalX(s, a), EvalX(s, b))
       case (Some(x), Some(y)) => Some(Cmp(op, Signed(ty, x.bits), Signed(ty, y.bits)))
       case _ => None)
    case MaskX(a, mask) =>
      (match EvalX(s, a)
       case Some(x) => Some(x.(bits := x.bits % (mask + 1)))
       case None => None)
    case DivUX(ty, a, b) =>
      (match (EvalX(s, a), EvalX(s, b))
       case (Some(x), Some(y)) => if y.bits == 0 then None else Some(Value(ty, Quotient(x.bits, y.bits)))
       case _ => None)
    case RemUX(ty, a, b) =>
      (match (EvalX(s, a), EvalX(s, b))
       case (Some(x), Some(y)) => if y.bits == 0 then None else Some(Value(ty, Remainder(x.bits, y.bits)))
       case _ => None)
    case DivSX(ty, a, b) =>
      (match (EvalX(s, a), EvalX(s, b))
       case (Some(x), Some(y)) =>
         var p, q := Signed(ty, x.bits), Signed(ty, y.bits);
         if q == 0 then None
         else if p == -(Modulus(ty) / 2) && q == -1 then None
         else Some(Value(ty, Wrap(ty, TruncDiv(p, q))))
       case _ => None)
    case RemSX(ty, a, b) =>
      (match (EvalX(s, a), EvalX(s, b))
       case (Some(x), Some(y)) =>
         var p, q := Signed(ty, x.bits), Signed(ty, y.bits);
         if q == 0 then None
         else if p == -(Modulus(ty) / 2) && q == -1 then Some(Value(ty, 0))
         else Some(Value(ty, Wrap(ty, TruncRem(p, q))))
       case _ => None)
    case RotlX(ty, a, b) =>
      (match (EvalX(s, a), EvalX(s, b))
       case (Some(x), Some(y)) => Some(Value(ty, RotlMacro(ty, Wrap(ty, x.bits), y.bits)))
       case _ => None)
    case RotrX(ty, a, b) =>
      (match (EvalX(s, a), EvalX(s, b))
       case (Some(x), Some(y)) => Some(Value(ty, RotrMacro(ty, Wrap(ty, x.bits), y.bits)))
       case _ => None)
    case NotX(a) =>
      (match EvalX(s, a)
       case Some(x) => Some(BoolValue(x.bits == 0))
       case None => None)
    case CondX(c, a, b) =>
      (match EvalX(s, c)
       case Some(x) => if x.bits != 0 then EvalX(s, a) else EvalX(s, b)
       case None => None)
  }

  // ----- labels -----

  /** The labels written in a piece of code. */
  function Labels(c: Code): set<CLabel>
    decreases c
  {
    match c
    case Nil => {}
    case Cons(s, t) => StmtLabels(s) + Labels(t)
  }

  function StmtLabels(s: Stmt): set<CLabel>
    decreases s
  {
    match s
    case LabelHere(l, _) => {l}
    case IfElse(_, a, b) => Labels(a) + Labels(b)
    case IfTag(_, a, b) => Labels(a) + Labels(b)
    case IfTry(_, a, b) => Labels(a) + Labels(b)
    case Switch(_, cs) => CaseLabels(cs)
    case _ => {}
  }

  function CaseLabels(cs: Cases): set<CLabel>
    decreases cs
  {
    match cs
    case DefaultCase(c) => Labels(c)
    case Case(c, r) => Labels(c) + CaseLabels(r)
  }

  function Else(a: Option<Code>, b: Option<Code>): Option<Code> {
    if a.Some? then a else b
  }

  /** The code to run after jumping to `l`, when `c` is followed by `k`. */
  function Find(l: CLabel, c: Code, k: Code): Option<Code>
    decreases c
  {
    match c
    case Nil => None
    case Cons(s, t) => Else(FindStmt(l, s, Append(t, k)), Find(l, t, k))
  }

  function FindStmt(l: CLabel, s: Stmt, k: Code): Option<Code>
    decreases s
  {
    match s
    case LabelHere(l1, _) => if l == l1 then Some(k) else None
    case IfElse(_, a, b) => Else(Find(l, a, k), Find(l, b, k))
    case IfTag(_, a, b) => Else(Find(l, a, k), Find(l, b, k))
    case IfTry(_, a, b) => Else(Find(l, a, k), Find(l, b, k))
    case Switch(_, cs) => FindCase(l, cs, k)
    case _ => None
  }

  function FindCase(l: CLabel, cs: Cases, k: Code): Option<Code>
    decreases cs
  {
    match cs
    case DefaultCase(c) => Find(l, c, k)
    case Case(c, r) => Else(Find(l, c, Append(CasesFrom(r), k)), FindCase(l, r, k))
  }

  /** Control falls through from a case into the ones after it. */
  function CasesFrom(cs: Cases): Code {
    match cs
    case DefaultCase(c) => c
    case Case(c, r) => Append(c, CasesFrom(r))
  }

  function SelectCase(cs: Cases, v: nat): Code {
    match cs
    case DefaultCase(c) => c
    case Case(c, r) => if v == 0 then CasesFrom(cs) else SelectCase(r, v - 1)
  }

  // ----- the machine -----

  /** A function: its code, and the address of the traced memory object. */
  datatype Prog = Prog(body: Code, base: nat)

  datatype Conf =
    | Running(code: Code, s: Store)
    | Finished(vals: seq<Value>, s: Store)
    | Escaped(s: Store)      // an exception left for the caller
    | Aborted(s: Store)      // trapped
    | Stuck

  function Pointer(base: nat, v: Value): nat {
    (base + v.bits) % 0x1_0000_0000_0000_0000
  }

  /** Resume where the exception machinery unwinds to. */
  function Unwound(s: Store): Conf {
    match s.unwind
    case Caller => Escaped(s)
    case Buffer(n) => if n in s.bufs then Running(s.bufs[n], s) else Stuck
  }

  /** A callee returned its results, left with an exception, or trapped. */
  function CallEnds(r: HostResult, dsts: seq<(int, Type)>, k: Code, s: Store): Conf {
    match r
    case Returned(vs, w) => Running(k, SetSlots(s.(world := w), dsts, vs))
    case Threw(x, w) => Unwound(s.(world := w, exn := x))
    case HostTrap(w) => Aborted(s.(world := w))
  }

  function Step(host: Host, p: Prog, c: Conf): Conf {
    match c
    case Running(Cons(st, k), s) => StepStmt(host, p, st, k, s)
    case Running(Nil, _) => Stuck
    case _ => c
  }

  function StepStmt(host: Host, p: Prog, st: Stmt, k: Code, s: Store): Conf {
    match st
    case Assign(h, t, e) =>
      (match EvalX(s, e)
       case Some(v) => Running(k, s.(slots := s.slots[(h, t) := v]))
       case None => Aborted(s))
    case SetLocal(i, e) =>
      (match EvalX(s, e)
       case Some(v) => Running(k, s.(locals := SetAt(s.locals, i, v)))
       case None => Aborted(s))
    case SetGlobal(i, e) =>
      (match EvalX(s, e)
       case Some(v) => Running(k, s.(world := s.world.(globals := SetAt(s.world.globals, i, v))))
       case None => Aborted(s))
    case LoadMem(h, t, acc, m, addr, offset) =>
      (match EvalX(s, addr)
       case None => Aborted(s)
       case Some(a) =>
         match ReadMem(s.world.Mem(m), acc, a.bits + offset)
         case None => Aborted(s)
         case Some(v) => Running(k, s.(slots := s.slots[(h, t) := v])))
    case StoreMem(acc, m, addr, offset, e) =>
      (match (EvalX(s, addr), EvalX(s, e))
       case (Some(a), Some(v)) =>
         (match WriteMem(s.world.Mem(m), acc, a.bits + offset, v.bits)
          case None => Aborted(s)
          case Some(mem) => Running(k, s.(world := s.world.SetMem(m, mem))))
       case _ => Aborted(s))
    case Print(to, store, addr) =>
      (match EvalX(s, addr)
       case None => Aborted(s)
       case Some(a) =>
         var r := [Record(store, Pointer(p.base, a))];
         Running(k, if to == Stdout then s.(out := s.out + r) else s.(file := s.file + r)))
    case CallFunc(f, args, dsts) =>
      CallEnds(host(f, SlotValues(s, args), s.world), dsts, k, s)
    case IfElse(c, a, b) =>
      (match EvalX(s, c)
       case Some(v) => Running(Append(if v.bits != 0 then a else b, k), s)
       case None => Aborted(s))
    case IfTag(t, a, b) => Running(Append(if s.exn.tag == t then a else b, k), s)
    case Switch(c, cs) =>
      (match EvalX(s, c)
       case Some(v) => Running(Append(SelectCase(cs, v.bits), k), s)
       case None => Aborted(s))
    case LabelHere(_, _) => Running(k, s)
    case Goto(l) =>
      (match Find(l, p.body, Nil)
       case Some(k1) => Running(k1, s)
       case None => Stuck)
    case Abort => Aborted(s)
    case ReturnSlots(srcs) => Finished(SlotValues(s, srcs), s)
    case IfTry(n, a, b) =>
      Running(Append(a, k), s.(outer := s.outer[n := s.unwind], bufs := s.bufs[n := Append(b, k)]))
    case UnwindTo(n) => Running(k, s.(unwind := Buffer(n)))
    case UnwindOuter(n) => if n in s.outer then Running(k, s.(unwind := s.outer[n])) else Stuck
    case LoadExn(t, srcs) => Running(k, s.(exn := Exn(t, SlotValues(s, srcs))))
    case SaveExn(n) => Running(k, s.(saved := s.saved[n := s.exn]))
    case ReloadExn(n) => if n in s.saved then Running(k, s.(exn := s.saved[n])) else Stuck
    case UnpackExn(dsts) => Running(k, SetSlots(s, dsts, s.exn.args))
    case RtThrow => Unwound(s)
  }

  function Steps(host: Host, p: Prog, c: Conf, n: nat): Conf
    decreases n
  {
    if n == 0 then c else Steps(host, p, Step(host, p, c), n - 1)
  }

  lemma {:induction false} StepsAdd(host: Host, p: Prog, c: Conf, n: nat, m: nat)
    ensures Steps(host, p, c, n + m) == Steps(host, p, Steps(host, p, c, n), m)
    decreases n
  {
    if n > 0 { StepsAdd(host, p, Step(host, p, c), n - 1, m); }
  }

  /** A state that has stopped stays as it is. */
  lemma {:induction false} StepsStopped(host: Host, p: Prog, c: Conf, n: nat)
    requires !c.Running?
    ensures Steps(host, p, c, n) == c
    decreases n
  {
    if n > 0 { StepsStopped(host, p, c, n - 1); }
  }

  /** Search succeeds exactly for the labels present. */
  lemma {:induction false} FindLabels(l: CLabel, c: Code, k: Code)
    ensures Find(l, c, k).Some? <==> l in Labels(c)
    decreases c
  {
    match c
    case Nil =>
    case Cons(s, t) =>
      FindStmtLabels(l, s, Append(t, k));
      FindLabels(l, t, k);
  }

  lemma {:induction false} FindStmtLabels(l: CLabel, s: Stmt, k: Code)
    ensures FindStmt(l, s, k).Some? <==> l in StmtLabels(s)
    decreases s
  {
    match s
    case IfElse(_, a, b) => FindLabels(l, a, k); FindLabels(l, b, k);
    case IfTag(_, a, b) => FindLabels(l, a, k); FindLabels(l, b, k);
    case IfTry(_, a, b) => FindLabels(l, a, k); FindLabels(l, b, k);
    case Switch(_, cs) => FindCaseLabels(l, cs, k);
    case _ =>
  }

  lemma {:induction false} FindCaseLabels(l: CLabel, cs: Cases, k: Code)
    ensures FindCase(l, cs, k).Some? <==> l in CaseLabels(cs)
    decreases cs
  {
    match cs
    case DefaultCase(c) => FindLabels(l, c, k);
    case Case(c, r) =>
      FindLabels(l, c, Append(CasesFrom(r), k));
      FindCaseLabels(l, r, k);
  }

  lemma {:induction false} FindAppend(l: CLabel, a: Code, b: Code, k: Code)
    ensures Find(l, Append(a, b), k) == Else(Find(l, a, Append(b, k)), Find(l, b, k))
    decreases a
  {
    match a
    case Nil =>
    case Cons(s, t) =>
      AppendAssoc(t, b, k);
      FindAppend(l, t, b, k);
  }

  lemma {:induction false} LabelsAppend(a: Code, b: Code)
    ensures Labels(Append(a, b)) == Labels(a) + Labels(b)
  {
    match a
    case Nil =>
    case Cons(s, t) => LabelsAppend(t, b);
  }
}

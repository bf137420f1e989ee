/** The code the C writer emits for an expression list, as a function of the writer's
    state: its type stack, label stack and try/catch stack. */
module Lowering {
  import opened Ir
  import opened Wasm
  import opened Typing
  import opened StackTypes
  import opened CLang

  datatype LabelKind = FuncKind | BlockKind | LoopKind | IfKind | TryKindL | CatchKind

  datatype LabelEntry = LabelEntry(frame: Frame, kind: LabelKind, typeStackSize: nat, tryStackSize: nat, used: bool)

  datatype TryEntry = TryEntry(name: string, used: bool)

  /** The three stacks, and two facts about what has been written that the writer does not
      keep: `dead`, that the code being written is behind a throw of its own list; `sound`,
      that all is C so far, that an exception no clause but one takes runs that clause alone,
      and that no block that can be reached changed the types below it. */
  datatype Writer = Writer(ts: seq<Type>, labels: seq<LabelEntry>, tries: seq<TryEntry>, dead: bool, sound: bool)

  /** `rethrown` names the tries whose exception is saved for a rethrow. */
  datatype Config = Config(env: Env, trace: bool, rethrown: set<string>)

  // ----- stack variables -----

  /** The variable for the operand `i` places from the top. */
  function StackVar(ts: seq<Type>, i: int): (int, Type) {
    var h := |ts| - 1 - i;
    (h, if 0 <= h < |ts| then ts[h] else I32)
  }

  function VarX(v: (int, Type)): CExpr { SlotX(v.0, v.1) }

  /** The variables of heights `h`, `h + 1`, ... and the given types. */
  function SlotsFrom(h: int, ts: seq<Type>): (r: seq<(int, Type)>)
    ensures |r| == |ts|
    decreases |ts|
  {
    if ts == [] then [] else [(h, ts[0])] + SlotsFrom(h + 1, ts[1..])
  }

  function TopSlots(ts: seq<Type>, n: nat): seq<(int, Type)> {
    SlotsFrom(|ts| - n, TopN(ts, n))
  }

  function AssignVar(v: (int, Type), e: CExpr): Code { One(Assign(v.0, v.1, e)) }

  // ----- plain instructions -----

  function ShiftMask(ty: Type): nat { Bits(ty) - 1 }

  function BinaryX(ty: Type, op: BinOp, a: CExpr, b: CExpr): CExpr {
    match op
    case Add => InfixX(PlusOp, ty, a, b)
    case Sub => InfixX(MinusOp, ty, a, b)
    case Mul => InfixX(TimesOp, ty, a, b)
    case DivS => DivSX(ty, a, b)
    case DivU => DivUX(ty, a, b)
    case RemS => RemSX(ty, a, b)
    case RemU => RemUX(ty, a, b)
    case Shl => InfixX(ShlOp, ty, a, MaskX(b, ShiftMask(ty)))
    case ShrU => InfixX(ShrOp, ty, a, MaskX(b, ShiftMask(ty)))
    case ShrS => SignedShrX(ty, a, MaskX(b, ShiftMask(ty)))
    case And => InfixX(AndOp, ty, a, b)
    case Or => InfixX(OrOp, ty, a, b)
    case Xor => InfixX(XorOp, ty, a, b)
    case Rotl => RotlX(ty, a, b)
    case Rotr => RotrX(ty, a, b)
  }

  function CompareX(ty: Type, op: RelOp, a: CExpr, b: CExpr): CExpr {
    match op
    case Eq => CmpX(EqOp, a, b)
    case Ne => CmpX(NeOp, a, b)
    case LtU => CmpX(LtOp, a, b)
    case GtU => CmpX(GtOp, a, b)
    case LeU => CmpX(LeOp, a, b)
    case GeU => CmpX(GeOp, a, b)
    case LtS => SignedCmpX(LtOp, ty, a, b)
    case GtS => SignedCmpX(GtOp, ty, a, b)
    case LeS => SignedCmpX(LeOp, ty, a, b)
    case GeS => SignedCmpX(GeOp, ty, a, b)
  }

  function TraceCode(trace: bool, store: bool, addr: CExpr): Code {
    if trace then Cons(Print(Stdout, store, addr), One(Print(LogFile, store, addr))) else Nil
  }

  /** The variable for an operand about to be pushed. */
  function NewVar(ts: seq<Type>, t: Type): (int, Type) { (|ts|, t) }

  function InstrCode(cfg: Config, i: Instr, ts: seq<Type>): Code {
    var s0, s1, s2 := StackVar(ts, 0), StackVar(ts, 1), StackVar(ts, 2);
    match i
    case Const(v) => AssignVar(NewVar(ts, v.ty), LitX(v))
    case Binary(ty, op) =>
      AssignVar(if op in {Shl, ShrU, ShrS} then s1 else (s1.0, ty), BinaryX(ty, op, VarX(s1), VarX(s0)))
    case Compare(ty, op) => AssignVar((s1.0, I32), CompareX(ty, op, VarX(s1), VarX(s0)))
    case Eqz(ty) => AssignVar((s0.0, I32), NotX(VarX(s0)))
    case Drop => Nil
    case Select => AssignVar(s2, CondX(VarX(s0), VarX(s2), VarX(s1)))
    case Nop => Nil
    case LocalGet(x) => AssignVar(NewVar(ts, TypeAt(cfg.env.locals, x)), LocalX(x))
    case LocalSet(x) => One(SetLocal(x, VarX(s0)))
    case LocalTee(x) => One(SetLocal(x, VarX(s0)))
    case GlobalGet(x) => AssignVar(NewVar(ts, TypeAt(cfg.env.globals, x)), GlobalX(x))
    case GlobalSet(x) => One(SetGlobal(x, VarX(s0)))
    case Load(acc, _, k, offset) =>
      Append(TraceCode(cfg.trace, false, VarX(s0)), One(LoadMem(s0.0, acc.ty, acc, k, VarX(s0), offset)))
    case Store(acc, _, k, offset) =>
      Append(TraceCode(cfg.trace, true, VarX(s1)), One(StoreMem(acc, k, VarX(s1), offset, VarX(s0))))
    case Call(f) => One(CallStmt(cfg.env, f, ts))
  }

  /** A call's results take the variables from its first operand's height up. */
  function CallStmt(env: Env, f: nat, ts: seq<Type>): Stmt {
    var sig := SigOf(env, f);
    CallFunc(f, TopSlots(ts, |sig.params|), SlotsFrom(|ts| - |sig.params|, sig.results))
  }

  function LowerInstr(cfg: Config, i: Instr, ts: seq<Type>): (Code, seq<Type>) {
    (InstrCode(cfg, i, ts), After(cfg.env, i, ts))
  }

  // ----- branches -----

  /** The innermost label of that name; the function label when there is none. */
  function FindLabel(labels: seq<LabelEntry>, v: Var): nat {
    match v
    case Index(_) => 0
    case Name(n) => FindNamed(labels, n)
  }

  function FindNamed(labels: seq<LabelEntry>, name: string): (i: nat)
    ensures labels != [] ==> i < |labels|
  {
    if labels == [] then 0
    else if labels[|labels| - 1].frame.name == name then |labels| - 1
    else if |labels| == 1 then 0
    else FindNamed(labels[..|labels| - 1], name)
  }

  function MarkLabel(w: Writer, i: nat): Writer {
    if i < |w.labels| then w.(labels := w.labels[i := w.labels[i].(used := true)]) else w
  }

  function MarkTry(w: Writer, i: nat): Writer {
    if i < |w.tries| then w.(tries := w.tries[i := w.tries[i].(used := true)]) else w
  }

  /** Copy the variables of heights `src`, `src + 1`, ... with the types `from` to those of
      heights `dst`, `dst + 1`, ... with the types `to`, one assignment after another. */
  function Moves(dst: int, to: seq<Type>, src: int, from: seq<Type>): Code
    decreases |to|
  {
    if to == [] || from == [] then Nil
    else Cons(Assign(dst, to[0], SlotX(src, from[0])), Moves(dst + 1, to[1..], src + 1, from[1..]))
  }

  function BranchMoves(ts: seq<Type>, base: nat, sig: seq<Type>): Code {
    if |ts| - base - |sig| != 0 then Moves(base, sig, |ts| - |sig|, TopN(ts, |sig|)) else Nil
  }

  function UnwindCode(tries: seq<TryEntry>, size: nat): Code {
    if size < |tries| then One(UnwindOuter(tries[size].name)) else Nil
  }

  function GotoTarget(v: Var): CLabel {
    match v
    case Name(n) => UserLabel(n)
    case Index(_) => FuncLabel
  }

  function LowerGoto(v: Var, w: Writer): (Code, Writer) {
    var i := FindLabel(w.labels, v);
    if i < |w.labels| then
      var l := w.labels[i];
      (Append(BranchMoves(w.ts, l.typeStackSize, l.frame.sig),
              Append(UnwindCode(w.tries, l.tryStackSize), One(Goto(GotoTarget(v))))),
       MarkLabel(w, i))
    else (Nil, w)
  }

  function LowerCases(vs: seq<Var>, d: Var, w: Writer): (Cases, Writer)
    decreases |vs|
  {
    if vs == [] then
      var (c, w1) := LowerGoto(d, w);
      (DefaultCase(c), w1)
    else
      var (c, w1) := LowerGoto(vs[0], w);
      var (r, w2) := LowerCases(vs[1..], d, w1);
      (Case(c, r), w2)
  }

  function LowerThrow(w: Writer): (Code, Writer) {
    if w.tries == [] then (One(RtThrow), w)
    else (One(Goto(CatchLabel(w.tries[|w.tries| - 1].name))), MarkTry(w, |w.tries| - 1))
  }

  /** Where an exception delegated to `v` goes, from inside a try that is still open. */
  function LowerDelegate(v: Var, w: Writer): (Code, Writer) {
    var toCaller :=
      if w.tries == [] then Nil else Cons(UnwindOuter(w.tries[0].name), One(RtThrow));
    match v
    case Index(_) => (toCaller, w)
    case Name(n) =>
      var i := FindLabel(w.labels, v);
      if i >= |w.labels| then (Nil, w)
      else
        var l := w.labels[i];
        if l.kind == TryKindL then (One(Goto(CatchLabel(n))), MarkTry(w, l.tryStackSize))
        else if l.tryStackSize == 0 then (toCaller, w)
        else if l.tryStackSize <= |w.tries| then
          (One(Goto(CatchLabel(w.tries[l.tryStackSize - 1].name))), MarkTry(w, l.tryStackSize - 1))
        else (Nil, w)
  }

  // ----- structured control -----

  function PushLabel(w: Writer, f: Frame, kind: LabelKind): Writer {
    w.(labels := w.labels + [LabelEntry(f, kind, |w.ts|, |w.tries|, false)])
  }

  function TopLabelUsed(w: Writer): bool {
    w.labels != [] && w.labels[|w.labels| - 1].used
  }

  function LabelDecl(w: Writer, l: CLabel): Code {
    if TopLabelUsed(w) then One(LabelHere(l, true)) else Nil
  }

  /** Cut the type stack back to the height of `w0`, where a block began, and push `ts`. */
  function ResetTs(w: Writer, w0: Writer, ts: seq<Type>): Writer {
    w.(ts := w.ts[..if |w0.ts| <= |w.ts| then |w0.ts| else |w.ts|] + ts,
       dead := w0.dead,
       sound := w.sound && (w0.dead || w0.ts <= w.ts))
  }

  /** Close the block that began at `w0`. */
  function PopBlock(w: Writer, w0: Writer, results: seq<Type>): Writer {
    ResetTs(w, w0, results).(labels := DropN(w.labels, 1))
  }

  function LowerList(cfg: Config, es: seq<Expr>, w: Writer): (Code, Writer)
    decreases es, 0
  {
    if es == [] then (Nil, w)
    else
      var (c1, w1) := LowerExpr(cfg, es[0], w);
      if Ends(es[0]) then (c1, w1)
      else
        var (c2, w2) := LowerList(cfg, es[1..], w1);
        (Append(c1, c2), w2)
  }

  function LowerExpr(cfg: Config, e: Expr, w: Writer): (Code, Writer)
    decreases e, 2
  {
    match e
    case Plain(i) =>
      var (c, ts) := LowerInstr(cfg, i, w.ts);
      (c, w.(ts := ts))
    case Br(v) => LowerGoto(v, w)
    case BrIf(v) =>
      var (c, w1) := LowerGoto(v, w.(ts := DropN(w.ts, 1)));
      (One(IfElse(VarX(StackVar(w.ts, 0)), c, Nil)), w1)
    case BrTable(vs, d) =>
      var (cs, w1) := LowerCases(vs, d, w.(ts := DropN(w.ts, 1)));
      (One(Switch(VarX(StackVar(w.ts, 0)), cs)), w1)
    case Return => LowerGoto(Index(if w.labels == [] then 0 else |w.labels| - 1), w)
    case Unreachable => (One(Abort), w)
    case Throw(t) =>
      var (c, w1) := LowerThrow(w);
      (Cons(LoadExn(t, TopSlots(w.ts, |TagOf(cfg.env, t)|)), c), w1.(dead := true))
    case Rethrow(v) =>
      var (c, w1) := LowerThrow(w);
      (Cons(ReloadExn(if v.Name? then v.name else ""), c), w1.(dead := true))
    case Block(l, d, body) => LowerBlock(cfg, l, d, body, w)
    case Loop(_, _, _) => LowerLoop(cfg, e, w)
    case If(_, _, _, _) => LowerIf(cfg, e, w)
    case Try(l, d, body, kind, _, _) =>
      if kind == PlainTry then LowerBlock(cfg, l, d, body, w) else LowerTry(cfg, e, w)
  }

  /** The writer's state at the start of a block body, its parameters taken from `w`. */
  function Enter(w: Writer, f: Frame, kind: LabelKind, params: seq<Type>): Writer {
    var w1 := PushLabel(w, f, kind);
    w1.(ts := w1.ts + params)
  }

  function LowerLoop(cfg: Config, e: Expr, w: Writer): (Code, Writer)
    requires e.Loop?
    decreases e, 1
  {
    var sig := e.decl.sig;
    if e.body == [] then (Nil, w)
    else
      var w0 := w.(ts := DropN(w.ts, |sig.params|));
      var (c, w2) := LowerList(cfg, e.body, Enter(w0, Frame(e.name, sig.params), LoopKind, sig.params));
      (Cons(LabelHere(UserLabel(e.name), false), c), PopBlock(w2, w0, sig.results))
  }

  /** Each of `cs` has been written between braces. */
  function Braced(w: Writer, cs: seq<Code>): Writer {
    w.(sound := w.sound && forall c | c in cs :: !ShapeOf(c).hangs)
  }

  function LowerIf(cfg: Config, e: Expr, w: Writer): (Code, Writer)
    requires e.If?
    decreases e, 1
  {
    var sig := e.decl.sig;
    var w0 := w.(ts := DropN(DropN(w.ts, 1), |sig.params|));
    var (c1, w2) := LowerList(cfg, e.thn, Enter(w0, Frame(e.name, sig.results), IfKind, sig.params));
    var (c2, w3) :=
      if e.els == [] then (Nil, w2) else LowerList(cfg, e.els, ResetTs(w2, w0, sig.params));
    (Cons(IfElse(VarX(StackVar(w.ts, 0)), c1, c2), LabelDecl(w3, UserLabel(e.name))),
     Braced(PopBlock(w3, w0, sig.results), [c1, c2]))
  }

  /** The start of a try: its label, its entry on the try stack and its operands. */
  function EnterTry(w: Writer, f: Frame, params: seq<Type>): Writer {
    var w1 := Enter(w, f, TryKindL, params);
    w1.(tries := w1.tries + [TryEntry(f.name, false)])
  }

  function Landing(w: Writer, l: string): Code {
    if TryUsed(w) then One(LabelHere(CatchLabel(l), true)) else Nil
  }

  function SaveCode(cfg: Config, l: string): Code {
    if l in cfg.rethrown then One(SaveExn(l)) else Nil
  }

  function PopTry(w: Writer): Writer { w.(tries := DropN(w.tries, 1)) }

  function LowerTry(cfg: Config, e: Expr, w: Writer): (Code, Writer)
    requires e.Try?
    decreases e, 1
  {
    var (l, sig) := (e.name, e.decl.sig);
    var w0 := w.(ts := DropN(w.ts, |sig.params|));
    var (c1, w2) := LowerList(cfg, e.body, EnterTry(w0, Frame(l, sig.results), sig.params));
    var w3 := BeginCatches(w2, w0);
    if e.kind == CatchTry then
      var (c2, w4) := LowerCatches(cfg, e.catches, w0, PopTry(w3));
      var handler := Append(Landing(w2, l), Cons(UnwindOuter(l), Append(SaveCode(cfg, l), c2)));
      (TryCode(l, c1, handler, LabelDecl(w4, UserLabel(l))), Braced(PopBlock(w4, w0, sig.results), [c2]))
    else
      var (c2, w4) := LowerDelegate(e.delegate, w3);
      (TryCode(l, c1, Append(Landing(w2, l), c2), LabelDecl(w4, UserLabel(l))),
       PopBlock(PopTry(w4), w0, sig.results))
  }

  function LowerBlock(cfg: Config, l: string, d: BlockDecl, body: seq<Expr>, w: Writer): (Code, Writer)
    decreases body, 1
  {
    var w0 := w.(ts := DropN(w.ts, |d.sig.params|));
    var (c, w2) := LowerList(cfg, body, Enter(w0, Frame(l, d.sig.results), BlockKind, d.sig.params));
    (Append(c, LabelDecl(w2, UserLabel(l))), PopBlock(w2, w0, d.sig.results))
  }

  function TryUsed(w: Writer): bool {
    w.tries != [] && w.tries[|w.tries| - 1].used
  }

  /** After a try's body: its label now stands for its catch part. */
  function BeginCatches(w: Writer, w0: Writer): Writer {
    var w1 := ResetTs(w, w0, []);
    if w.labels == [] then w1
    else w1.(labels := w.labels[|w.labels| - 1 := w.labels[|w.labels| - 1].(kind := CatchKind)])
  }

  function TryCode(l: string, body: Code, handler: Code, after: Code): Code {
    Cons(IfTry(l, Cons(UnwindTo(l), Append(body, One(UnwindOuter(l)))), handler), after)
  }

  /** The exception's values go to the variables above the height where the try began. */
  function UnpackCode(base: nat, tys: seq<Type>): Code {
    if tys == [] then Nil else One(UnpackExn(SlotsFrom(base, tys)))
  }

  /** The clauses of a try that began at `w0`, chained by `else`; what no clause takes is
      thrown on. Only a catch_all is written behind its `else` without braces. */
  function LowerCatches(cfg: Config, cs: seq<Catch>, w0: Writer, w: Writer): (Code, Writer)
    decreases cs, 0
  {
    if cs == [] then LowerThrow(w)
    else
      match cs[0].tag
      case None => LowerList(cfg, cs[0].exprs, ResetTs(w, w0, []))
      case Some(t) =>
        var tys := TagOf(cfg.env, t);
        var (c1, w2) := LowerList(cfg, cs[0].exprs, ResetTs(w, w0, tys));
        var (c2, w3) := LowerCatches(cfg, cs[1..], w0, w2);
        (Cons(IfTag(t, Append(UnpackCode(|w0.ts|, tys), c1), ElseBound(c2)), ElseLeft(c2)),
         Chained(w3, cs[0].exprs, c1, c2))
  }

  /** A clause `es`, written as `c1`, has been chained to the code `c2` of the clauses behind
      it: there is a statement for its `else`, and whatever is left over behind that statement
      is not reached from the end of the clause. */
  function Chained(w: Writer, es: seq<Expr>, c1: Code, c2: Code): Writer {
    w.(sound := w.sound && !ShapeOf(c1).hangs && ShapeOf(c2).n >= 1 && (ElseLeft(c2) == Nil || LeavesList(es)))
  }

  /** The tries named by the rethrows that are written. */
  function Rethrown(es: seq<Expr>): set<string>
    decreases es, 0
  {
    if es == [] then {} else RethrownBy(es[0]) + if Ends(es[0]) then {} else Rethrown(es[1..])
  }

  function RethrownBy(e: Expr): set<string>
    decreases e, 1
  {
    match e
    case Rethrow(v) => if v.Name? then {v.name} else {}
    case Block(_, _, b) => Rethrown(b)
    case Loop(_, _, b) => Rethrown(b)
    case If(_, _, a, b) => Rethrown(a) + Rethrown(b)
    case Try(_, _, b, kind, cs, _) => Rethrown(b) + if kind == CatchTry then RethrownIn(cs) else {}
    case _ => {}
  }

  function RethrownIn(cs: seq<Catch>): set<string>
    decreases cs, 0
  {
    if cs == [] then {} else Rethrown(cs[0].exprs) + if cs[0].tag == None then {} else RethrownIn(cs[1..])
  }

  /** A whole function: its body, the shared return label if used, and the return. */
  function LowerFunc(cfg: Config, body: seq<Expr>): Code {
    var results := cfg.env.results;
    var w0 := Writer([], [LabelEntry(Frame("", results), FuncKind, 0, 0, false)], [], false, true);
    var (c, w1) := LowerList(cfg, body, w0);
    Append(c, Append(LabelDecl(w1, FuncLabel), One(ReturnSlots(SlotsFrom(0, results)))))
  }
}

/** On arbitrary bytes the reader's block stack and its delegate's label stack stay in step, so
    the delegate never pops an empty stack and never misses an end marker. */
module TreeLockStep {
  import opened Ir
  import opened Leb128
  import opened Opcodes
  import opened Immediates
  import opened TreeCodec
  import opened TreeRoundTrip

  predicate Matching(op: Opcode, kind: Kind) {
    match op
    case BlockOp => kind == BlockLabel
    case LoopOp => kind == LoopLabel
    case IfOp => kind == IfLabel || kind == ElseLabel
    case TryOp => kind == TryLabel
    case _ => false
  }

  /** The expression a label's list belongs to. */
  predicate Fits(top: Label, e: Expr) {
    match top.kind
    case BlockLabel => e.Block? && top.slot == BodySlot
    case LoopLabel => e.Loop? && top.slot == BodySlot
    case IfLabel => e.If? && top.slot == ThenSlot
    case ElseLabel => e.If? && top.slot == ElseSlot
    case TryLabel => e.Try? && (top.slot == BodySlot || (top.slot == CatchSlot && e.catches != []))
    case FuncLabel => false
  }

  /** Every open label's list is where the label stack says, inside the last expression of the
      list below. */
  predicate Shaped(root: seq<Expr>, labels: seq<Label>)
    decreases |labels|
  {
    |labels| <= 1 ||
    (var below := labels[..|labels| - 1];
     && Shaped(root, below)
     && var l := Get(root, PathOf(below));
        l.Some? && l.value != [] && Fits(labels[|labels| - 1], Last(l.value)))
  }

  /** One label more than blocks, the function's at the bottom, kinds matching. */
  ghost predicate InStep(st: State) {
    && |st.labels| == |st.nested| + 1 && st.labels[0].kind == FuncLabel
    && (forall i {:trigger st.nested[i]} | 0 <= i < |st.nested| :: Matching(st.nested[i], st.labels[i + 1].kind))
    && Shaped(st.root, st.labels)
  }

  lemma FitsList(top: Label, e: Expr)
    requires Fits(top, e)
    ensures ListOf(e, top.slot).Some?
    ensures forall es :: Fits(top, WithList(e, top.slot, es))
  {}

  lemma ShapedGet(root: seq<Expr>, labels: seq<Label>)
    requires labels != [] && Shaped(root, labels)
    ensures Get(root, PathOf(labels)).Some?
  {
    if |labels| > 1 {
      var below := labels[..|labels| - 1];
      ShapedGet(root, below);
      var l := Get(root, PathOf(below)).value;
      FitsList(labels[|labels| - 1], Last(l));
      GetDeeper(root, PathOf(below), labels[|labels| - 1].slot);
    }
  }

  /** Changing the current list leaves the labels below in shape. */
  lemma {:induction false} ShapedPut(root: seq<Expr>, labels: seq<Label>, es: seq<Expr>)
    requires labels != [] && Shaped(root, labels)
    ensures var root1 := Put(root, PathOf(labels), es); Shaped(root1, labels) && Get(root1, PathOf(labels)) == Some(es)
    decreases |labels|
  {
    ShapedGet(root, labels);
    GetPut(root, PathOf(labels), es);
    if |labels| > 1 {
      var below, top := labels[..|labels| - 1], labels[|labels| - 1];
      var path := PathOf(below);
      var l := Get(root, path).value;
      FitsList(top, Last(l));
      PutDeeper(root, path, top.slot, es);
      ShapedPut(root, below, SetLast(l, WithList(Last(l), top.slot, es)));
    }
  }

  /** What a reply must be when the stacks are in step. */
  ghost predicate KeepsStep(reply: Reply) {
    match reply
    case Ok(st) => InStep(st)
    case Stop(st) => st.labels == [] && st.nested == []
    case Fail(why) => why == Malformed
  }

  lemma AppendKeeps(st: State, e: Expr)
    requires InStep(st)
    ensures KeepsStep(AppendExpr(st, e))
  {
    ShapedGet(st.root, st.labels);
    var l := Get(st.root, PathOf(st.labels)).value;
    ShapedPut(st.root, st.labels, l + [e]);
  }

  lemma OpenKeeps(st: State, op: Opcode, e: Expr, top: Label)
    requires InStep(st) && Matching(op, top.kind) && Fits(top, e)
    ensures KeepsStep(Open(st.(nested := st.nested + [op]), e, top))
  {
    ShapedGet(st.root, st.labels);
    var l := Get(st.root, PathOf(st.labels)).value;
    ShapedPut(st.root, st.labels, l + [e]);
    var root1 := Put(st.root, PathOf(st.labels), l + [e]);
    var labels := st.labels + [top];
    assert labels[..|labels| - 1] == st.labels;
    assert Shaped(root1, labels);
  }

  /** In step, the expression being built is there. */
  lemma TopThere(st: State)
    requires InStep(st) && |st.labels| > 1
    ensures TopLabelExpr(st) == None && ParentList(st).Some? && ParentList(st).value != []
    ensures Fits(Last(st.labels), Last(ParentList(st).value)) && Shaped(st.root, st.labels[..|st.labels| - 1])
    ensures Matching(Last(st.nested), Last(st.labels).kind)
  {}

  lemma ElseKeeps(st: State)
    requires InStep(st) && st.nested != [] && Last(st.nested) == IfOp
    ensures KeepsStep(OnElse(st))
  {
    TopThere(st);
    var top := Label(ElseLabel, ElseSlot);
    var labels := SetLast(st.labels, top);
    assert labels[..|labels| - 1] == st.labels[..|st.labels| - 1];
    if Last(st.labels).kind == IfLabel {
      assert Shaped(st.root, labels);
      assert forall i | 0 <= i < |st.nested| :: Matching(st.nested[i], labels[i + 1].kind);
    }
  }

  lemma EndKeeps(st: State)
    requires InStep(st)
    ensures KeepsStep(StepEnd(st))
  {
    if |st.labels| > 1 {
      TopThere(st);
      var labels := st.labels[..|st.labels| - 1];
      assert forall i | 0 <= i < |st.nested| - 1 :: Matching(st.nested[i], labels[i + 1].kind);
    }
  }

  lemma CatchKeeps(st: State, tag: Option<nat>)
    requires InStep(st)
    ensures KeepsStep(OnCatch(st, tag))
  {
    if Last(st.labels).kind == TryLabel {
      TopThere(st);
      var l := ParentList(st).value;
      var e := Last(l);
      var e1 := e.(kind := CatchTry, catches := e.catches + [Catch(tag, [])]);
      BuiltKeeps(st, l, e1);
      var root1 := SetBuilt(st, l, e1).root;
      var below := st.labels[..|st.labels| - 1];
      var labels := SetLast(st.labels, Label(TryLabel, CatchSlot));
      assert labels[..|labels| - 1] == below;
      assert Last(SetLast(l, e1)) == e1;
      assert Shaped(root1, labels);
      assert forall i | 0 <= i < |st.nested| :: Matching(st.nested[i], labels[i + 1].kind);
    }
  }

  lemma BuiltKeeps(st: State, l: seq<Expr>, e1: Expr)
    requires InStep(st) && |st.labels| > 1 && l != []
    ensures var below := st.labels[..|st.labels| - 1];
            var root1 := SetBuilt(st, l, e1).root;
            Shaped(root1, below) && Get(root1, PathOf(below)) == Some(SetLast(l, e1))
  {
    ShapedPut(st.root, st.labels[..|st.labels| - 1], SetLast(l, e1));
  }

  lemma DelegateKeeps(st: State, depth: nat)
    requires InStep(st) && st.nested != [] && Last(st.nested) == TryOp
    ensures KeepsStep(OnDelegate(st.(nested := st.nested[..|st.nested| - 1]), depth))
  {
    TopThere(st);
    var l := ParentList(st).value;
    var e := Last(l);
    BuiltKeeps(st, l, e.(kind := DelegateTry, delegate := Index(depth)));
    var labels := st.labels[..|st.labels| - 1];
    assert forall i | 0 <= i < |st.nested| - 1 :: Matching(st.nested[i], labels[i + 1].kind);
  }

  lemma OffsetKeeps(st: State, offset: nat)
    requires InStep(st)
    ensures InStep(st.(offset := offset))
  {}

  /** Every opcode keeps the stacks in step. */
  lemma StepKeeps(r: Reader, p: seq<byte>, st: State, op: Opcode)
    requires InStep(st)
    ensures KeepsStep(StepOp(r, p, st, op))
  {
    hide InStep, AppendExpr, Open, OnElse, StepEnd, OnCatch, OnDelegate, ReadInstr, ReadBlockType, ReadIndex,
        ReadBrTable;
    match op
    case UnreachableOp => AppendKeeps(st, Unreachable);
    case ReturnOp => AppendKeeps(st, Return);
    case BlockOp => BlockKeeps(r, p, st, op);
    case LoopOp => BlockKeeps(r, p, st, op);
    case IfOp => BlockKeeps(r, p, st, op);
    case TryOp => BlockKeeps(r, p, st, op);
    case ElseOp => if st.nested != [] && Last(st.nested) == IfOp { ElseKeeps(st); }
    case CatchAllOp => CatchKeeps(st, None);
    case EndOp => EndKeeps(st);
    case BrTableOp =>
      var x := ReadBrTable(p, st.offset);
      if x.Some? { OffsetKeeps(st, x.value.1); AppendKeeps(st.(offset := x.value.1), x.value.0); }
    case BrOp => IndexedKeeps(r, p, st, op);
    case BrIfOp => IndexedKeeps(r, p, st, op);
    case ThrowOp => IndexedKeeps(r, p, st, op);
    case RethrowOp => IndexedKeeps(r, p, st, op);
    case CatchOp => IndexedKeeps(r, p, st, op);
    case DelegateOp => IndexedKeeps(r, p, st, op);
    case _ => InstrKeeps(st, ReadInstr(r.features, op, p, st.offset));
  }

  lemma InstrKeeps(st: State, x: Option<(Instr, nat)>)
    requires InStep(st)
    ensures KeepsStep(StepInstr(st, x))
  {
    hide InStep, AppendExpr;
    if x.Some? {
      OffsetKeeps(st, x.value.1);
      AppendKeeps(st.(offset := x.value.1), Plain(x.value.0));
    }
  }

  lemma BlockKeeps(r: Reader, p: seq<byte>, st: State, op: Opcode)
    requires InStep(st) && op in {BlockOp, LoopOp, IfOp, TryOp}
    ensures KeepsStep(StepBlock(r, p, st, op))
  {
    hide InStep, Open, ReadBlockType;
    match ReadBlockType(r.types, p, st.offset)
    case None =>
    case Some(d) =>
      var st1 := st.(offset := d.1);
      OffsetKeeps(st, d.1);
      if op == BlockOp { OpenKeeps(st1, op, Block("", d.0, []), Label(BlockLabel, BodySlot)); }
      else if op == LoopOp { OpenKeeps(st1, op, Loop("", d.0, []), Label(LoopLabel, BodySlot)); }
      else if op == IfOp { OpenKeeps(st1, op, If("", d.0, [], []), Label(IfLabel, ThenSlot)); }
      else { OpenKeeps(st1, op, Try("", d.0, [], PlainTry, [], Index(0)), Label(TryLabel, BodySlot)); }
  }

  lemma IndexedKeeps(r: Reader, p: seq<byte>, st: State, op: Opcode)
    requires InStep(st) && op in {BrOp, BrIfOp, ThrowOp, RethrowOp, CatchOp, DelegateOp}
    ensures KeepsStep(StepIndexed(r, p, st, op))
  {
    hide InStep, AppendExpr, OnCatch, OnDelegate, ReadIndex;
    match ReadIndex(p, st.offset)
    case None =>
    case Some(x) =>
      var st1 := st.(offset := x.1);
      OffsetKeeps(st, x.1);
      if op == BrOp { AppendKeeps(st1, Br(Index(x.0))); }
      else if op == BrIfOp { AppendKeeps(st1, BrIf(Index(x.0))); }
      else if op == ThrowOp { AppendKeeps(st1, Throw(x.0)); }
      else if op == RethrowOp { AppendKeeps(st1, Rethrow(Index(x.0))); }
      else if op == CatchOp { CatchKeeps(st1, Some(x.0)); }
      else if st.nested != [] && Last(st.nested) == TryOp { DelegateKeeps(st1, x.0); }
  }

  /** Reading any bytes from the start of a body: the two stacks agree at every turn, the
      delegate's impossible errors do not occur, and a successful end leaves no label open. */
  lemma {:induction false} LockStep(r: Reader, p: seq<byte>, end: nat, st: State)
    requires InStep(st)
    ensures KeepsStep(Run(r, p, end, st)) && !Run(r, p, end, st).Ok?
    decreases |p| - st.offset
  {
    hide InStep, StepOp, StepInstr, FromCode;
    if st.offset < end && st.offset < |p| {
      var st1 := st.(offset := st.offset + 1);
      OffsetKeeps(st, st.offset + 1);
      match FromCode(p[st.offset]) {
        case Some(op) => StepKeeps(r, p, st1, op);
        case None => InstrKeeps(st1, r.others(p, st.offset));
      }
      assert KeepsStep(Step(r, p, st));
      match Step(r, p, st)
      case Ok(next) => LockStep(r, p, end, next);
      case _ =>
    }
  }

  lemma StartInStep(offset: nat)
    ensures InStep(BodyStart(offset))
  {}

  // ----- the cursor -----

  lemma IndexForward(p: seq<byte>, i: nat)
    ensures ReadIndex(p, i).Some? ==> i < ReadIndex(p, i).value.1 <= |p|
  {
    hide ReadU32;
    ReadU32Forward(p, i);
  }

  lemma {:induction false} IndicesForward(p: seq<byte>, i: nat, n: nat)
    requires i <= |p|
    ensures ReadIndices(p, i, n).Some? ==> i <= ReadIndices(p, i, n).value.1 <= |p|
    decreases n
  {
    hide ReadIndex;
    if n > 0 {
      IndexForward(p, i);
      match ReadIndex(p, i)
      case None =>
      case Some(x) => IndicesForward(p, x.1, n - 1);
    }
  }

  /** No opcode of the set moves the cursor back or past the end of the data. */
  lemma StepForward(r: Reader, p: seq<byte>, st: State, op: Opcode)
    requires st.offset <= |p|
    ensures var reply := StepOp(r, p, st, op); reply.Fail? || st.offset <= reply.st.offset <= |p|
  {
    hide Get, Put, PathOf, ReadIndex, ReadIndices, ReadS32, ReadInstr;
    IndexForward(p, st.offset);
    ReadSForward(p, st.offset);
    ReadInstrForward(r.features, op, p, st.offset);
    if op.BrTableOp? { BrTableForward(p, st.offset); }
  }

  lemma BrTableForward(p: seq<byte>, i: nat)
    ensures ReadBrTable(p, i).Some? ==> i < ReadBrTable(p, i).value.1 <= |p|
  {
    hide ReadIndex, ReadIndices;
    IndexForward(p, i);
    match ReadIndex(p, i)
    case None =>
    case Some(n) =>
      IndicesForward(p, n.1, n.0);
      match ReadIndices(p, n.1, n.0)
      case None =>
      case Some(vs) => IndexForward(p, vs.1);
  }
}

/** The reader itself: a cursor over the data, the loop over opcodes with its block stack, and
    the delegate's label stack and tree, updated in place. The loop computes exactly Run. */
module BinaryReader {
  import opened Ir
  import opened Leb128
  import opened Opcodes
  import opened Immediates
  import opened TreeCodec
  import opened TreeRoundTrip
  import opened TreeLockStep
  import opened BinaryWriter

  class BinaryReader {
    const reader: Reader
    const data: seq<byte>
    var offset: nat
    var labelStack: seq<Label>
    var root: seq<Expr>

    constructor (reader: Reader, data: seq<byte>)
      ensures this.reader == reader && this.data == data && St([]) == State(0, [], [], [])
    {
      this.reader, this.data := reader, data;
      offset, labelStack, root := 0, [], [];
    }

    ghost function St(nested: seq<Opcode>): State
      reads this
    {
      State(offset, nested, labelStack, root)
    }

    /** The delegate did what `reply` says: no error and its state, or its error. */
    ghost predicate Did(reply: Reply, nested: seq<Opcode>, fail: Option<Failure>)
      reads this
    {
      match reply
      case Ok(st) => fail == None && St(nested) == st
      case Stop(st) => false
      case Fail(why) => fail == Some(why)
    }

    // ----- the delegate -----

    method PushLabel(top: Label, ghost nested: seq<Opcode>) returns (fail: Option<Failure>)
      modifies this`labelStack
      ensures Did(TreeCodec.PushLabel(old(St(nested)), top), nested, fail)
    {
      if |labelStack| >= MAX_NESTING_DEPTH { return Some(Malformed); }
      labelStack := labelStack + [top];
      return None;
    }

    method PopLabel(ghost nested: seq<Opcode>) returns (fail: Option<Failure>)
      modifies this`labelStack
      ensures Did(TreeCodec.PopLabel(old(St(nested))), nested, fail)
    {
      if |labelStack| == 0 { return Some(NoLabel); }
      labelStack := labelStack[..|labelStack| - 1];
      return None;
    }

    method AppendExpr(e: Expr, ghost nested: seq<Opcode>) returns (fail: Option<Failure>)
      modifies this`root
      ensures Did(TreeCodec.AppendExpr(old(St(nested)), e), nested, fail)
    {
      if |labelStack| == 0 { return Some(NoLabel); }
      var path := PathOf(labelStack);
      match Get(root, path) {
        case None => return Some(NoParent);
        case Some(l) =>
          root := Put(root, path, l + [e]);
          return None;
      }
    }

    method OnBlock(e: Expr, top: Label, ghost nested: seq<Opcode>) returns (fail: Option<Failure>)
      modifies this`root, this`labelStack
      ensures Did(Open(old(St(nested)), e, top), nested, fail)
    {
      fail := AppendExpr(e, nested);
      if fail == None { fail := PushLabel(top, nested); }
    }

    method TopLabelExpr(ghost nested: seq<Opcode>) returns (fail: Option<Failure>, l: seq<Expr>)
      ensures fail == TreeCodec.TopLabelExpr(St(nested))
      ensures fail == None ==> |labelStack| >= 2 && l != [] && ParentList(St(nested)) == Some(l)
    {
      l := [];
      if |labelStack| < 2 { return Some(NoLabel), []; }
      match Get(root, PathOf(labelStack[..|labelStack| - 1])) {
        case None => return Some(NoParent), [];
        case Some(list) =>
          if list == [] { return Some(NoParent), []; }
          return None, list;
      }
    }

    method OnElseExpr(ghost nested: seq<Opcode>) returns (fail: Option<Failure>)
      modifies this`labelStack
      ensures Did(OnElse(old(St(nested))), nested, fail)
    {
      var l;
      fail, l := TopLabelExpr(nested);
      if fail == None {
        if Last(labelStack).kind != IfLabel { return Some(Malformed); }
        labelStack := SetLast(labelStack, Label(ElseLabel, ElseSlot));
      }
    }

    method OnEndExpr(ghost nested: seq<Opcode>) returns (fail: Option<Failure>)
      modifies this`labelStack
      ensures Did(OnEnd(old(St(nested))), nested, fail)
    {
      if |labelStack| > 1 {
        var l;
        fail, l := TopLabelExpr(nested);
        if fail != None { return; }
      }
      fail := PopLabel(nested);
    }

    method AppendCatch(tag: Option<nat>, ghost nested: seq<Opcode>) returns (fail: Option<Failure>)
      modifies this`root, this`labelStack
      ensures Did(OnCatch(old(St(nested)), tag), nested, fail)
    {
      if |labelStack| == 0 { return Some(NoLabel); }
      if Last(labelStack).kind != TryLabel { return Some(Malformed); }
      var l;
      fail, l := TopLabelExpr(nested);
      if fail != None { return; }
      var e := Last(l);
      if !e.Try? { return Some(NoParent); }
      if tag == None && e.catches != [] && Last(e.catches).tag == None { return Some(Malformed); }
      if e.kind == DelegateTry { return Some(Malformed); }
      root := Put(root, PathOf(labelStack[..|labelStack| - 1]),
          SetLast(l, e.(kind := CatchTry, catches := e.catches + [Catch(tag, [])])));
      labelStack := SetLast(labelStack, Label(TryLabel, CatchSlot));
      return None;
    }

    method OnDelegateExpr(depth: nat, ghost nested: seq<Opcode>) returns (fail: Option<Failure>)
      modifies this`root, this`labelStack
      ensures Did(OnDelegate(old(St(nested)), depth), nested, fail)
    {
      if |labelStack| == 0 { return Some(NoLabel); }
      if Last(labelStack).kind != TryLabel { return Some(Malformed); }
      var l;
      fail, l := TopLabelExpr(nested);
      if fail != None { return; }
      var e := Last(l);
      if !e.Try? { return Some(NoParent); }
      if e.kind == CatchTry { return Some(Malformed); }
      root := Put(root, PathOf(labelStack[..|labelStack| - 1]),
          SetLast(l, e.(kind := DelegateTry, delegate := Index(depth))));
      fail := PopLabel(nested);
    }

    // ----- the reader -----

    method ReadBlock(op: Opcode, nested: seq<Opcode>) returns (fail: Option<Failure>)
      requires op in {BlockOp, LoopOp, IfOp, TryOp}
      modifies this`offset, this`root, this`labelStack
      ensures Did(StepBlock(reader, data, old(St(nested)), op), nested + [op], fail)
    {
      hide Open, ReadBlockType;
      match ReadBlockType(reader.types, data, offset) {
        case None => return Some(Malformed);
        case Some(d) =>
          offset := d.1;
          ghost var now := nested + [op];
          if op == BlockOp { fail := OnBlock(Block("", d.0, []), Label(BlockLabel, BodySlot), now); }
          else if op == LoopOp { fail := OnBlock(Loop("", d.0, []), Label(LoopLabel, BodySlot), now); }
          else if op == IfOp { fail := OnBlock(If("", d.0, [], []), Label(IfLabel, ThenSlot), now); }
          else { fail := OnBlock(Try("", d.0, [], PlainTry, [], Index(0)), Label(TryLabel, BodySlot), now); }
      }
    }

    method ReadIndexed(op: Opcode, nested: seq<Opcode>) returns (fail: Option<Failure>, now: seq<Opcode>)
      requires op in {BrOp, BrIfOp, ThrowOp, RethrowOp, CatchOp, DelegateOp}
      modifies this`offset, this`root, this`labelStack
      ensures Did(StepIndexed(reader, data, old(St(nested)), op), now, fail)
    {
      hide TreeCodec.AppendExpr, OnCatch, OnDelegate, TreeCodec.ReadIndex;
      now := nested;
      match TreeCodec.ReadIndex(data, offset) {
        case None => return Some(Malformed), now;
        case Some(x) =>
          offset := x.1;
          if op == BrOp { fail := AppendExpr(Br(Index(x.0)), nested); }
          else if op == BrIfOp { fail := AppendExpr(BrIf(Index(x.0)), nested); }
          else if op == ThrowOp { fail := AppendExpr(Throw(x.0), nested); }
          else if op == RethrowOp { fail := AppendExpr(Rethrow(Index(x.0)), nested); }
          else if op == CatchOp { fail := AppendCatch(Some(x.0), nested); }
          else {
            if |nested| == 0 || nested[|nested| - 1] != TryOp { return Some(Malformed), now; }
            now := nested[..|nested| - 1];
            fail := OnDelegateExpr(x.0, now);
          }
      }
    }

    method ReadBrTableExpr(nested: seq<Opcode>) returns (fail: Option<Failure>)
      modifies this`offset, this`root
      ensures Did(StepOp(reader, data, old(St(nested)), BrTableOp), nested, fail)
    {
      hide TreeCodec.AppendExpr;
      match TreeCodec.ReadIndex(data, offset) {
        case None => return Some(Malformed);
        case Some(n) =>
          if n.1 + n.0 > |data| { return Some(Malformed); }
          var i, at, depths := 0, n.1, [];
          ghost var all := ReadIndices(data, n.1, n.0);
          if all.Some? { assert depths + all.value.0 == all.value.0; }
          while i < n.0
            invariant 0 <= i <= n.0 && offset == old(offset) && root == old(root)
            invariant all == match ReadIndices(data, at, n.0 - i) case None => None
                case Some(r) => Some((depths + r.0, r.1))
          {
            match TreeCodec.ReadIndex(data, at) {
              case None => return Some(Malformed);
              case Some(x) =>
                ghost var rest := ReadIndices(data, x.1, n.0 - i - 1);
                if rest.Some? { assert depths + ([Index(x.0)] + rest.value.0) == depths + [Index(x.0)] + rest.value.0; }
                depths := depths + [Index(x.0)];
                at := x.1;
            }
            i := i + 1;
          }
          assert all == Some((depths + [], at));
          match TreeCodec.ReadIndex(data, at) {
            case None => return Some(Malformed);
            case Some(d) =>
              assert depths + [] == depths;
              offset := d.1;
              fail := AppendExpr(BrTable(depths, Index(d.0)), nested);
          }
      }
    }

    method ReadInstrExpr(x: Option<(Instr, nat)>, nested: seq<Opcode>) returns (fail: Option<Failure>)
      modifies this`offset, this`root
      ensures Did(StepInstr(old(St(nested)), x), nested, fail)
    {
      hide TreeCodec.AppendExpr;
      match x {
        case None => return Some(Malformed);
        case Some(y) =>
          offset := y.1;
          fail := AppendExpr(Plain(y.0), nested);
      }
    }

    /** One opcode; `stop` when it ended the outermost block. */
    method ReadOp(op: Opcode, nested: seq<Opcode>) returns (fail: Option<Failure>, now: seq<Opcode>, stop: bool)
      modifies this`offset, this`root, this`labelStack
      ensures match StepOp(reader, data, old(St(nested)), op)
              case Stop(st) => stop && fail == None && St([]) == st.(nested := [])
              case reply => !stop && Did(reply, now, fail)
    {
      hide StepBlock, StepIndexed, StepInstr, TreeCodec.AppendExpr, OnElse, OnEnd, OnCatch, ReadInstr, ReadBrTable;
      now, stop := nested, false;
      StepsShape(reader, data, St(nested), op);
      if op == UnreachableOp { fail := AppendExpr(Unreachable, nested); }
      else if op == ReturnOp { fail := AppendExpr(Return, nested); }
      else if op in {BlockOp, LoopOp, IfOp, TryOp} {
        fail := ReadBlock(op, nested);
        now := nested + [op];
      } else if op == ElseOp {
        if |nested| == 0 || nested[|nested| - 1] != IfOp { return Some(Malformed), now, false; }
        fail := OnElseExpr(nested);
      } else if op == CatchAllOp { fail := AppendCatch(None, nested); }
      else if op == EndOp {
        fail := OnEndExpr(nested);
        if fail == None {
          if |nested| == 0 { stop := true; } else { now := nested[..|nested| - 1]; }
        }
      } else if op == BrTableOp { fail := ReadBrTableExpr(nested); }
      else if op in {BrOp, BrIfOp, ThrowOp, RethrowOp, CatchOp, DelegateOp} { fail, now := ReadIndexed(op, nested); }
      else { fail := ReadInstrExpr(ReadInstr(reader.features, op, data, offset), nested); }
    }

    /** Only the END of the outermost block stops. */
    lemma StepsShape(r: Reader, p: seq<byte>, st: State, op: Opcode)
      ensures op != EndOp ==> !StepOp(r, p, st, op).Stop?
      ensures !OnEnd(st).Stop? && (OnEnd(st).Ok? ==> OnEnd(st).st.nested == st.nested)
    {
      hide Get, Put, PathOf, ReadIndex, ReadIndices, ReadS32, ReadInstr;
    }

    method ReadInstructions(end: nat) returns (ok: bool)
      requires end <= |data|
      modifies this`offset, this`root, this`labelStack
      ensures match Run(reader, data, end, old(St([])))
              case Stop(st) => ok && offset == st.offset && labelStack == st.labels && root == st.root
              case _ => !ok
    {
      hide FromCode, StepOp, StepInstr;
      var nested: seq<Opcode> := [];
      while offset < end
        invariant Run(reader, data, end, old(St([]))) == Run(reader, data, end, St(nested))
        decreases |data| - offset
      {
        ghost var st := St(nested);
        var at := offset;
        var fail: Option<Failure>, now, stop := None, nested, false;
        offset := offset + 1;
        match FromCode(data[at]) {
          case Some(op) => fail, now, stop := ReadOp(op, nested);
          case None =>
            ghost var before := St(nested);
            fail := ReadInstrExpr(reader.others(data, at), nested);
            InstrGoesOn(before, reader.others(data, at));
        }
        if fail != None { return false; }
        if !(at < offset <= |data|) { return false; }
        if stop { return true; }
        nested := now;
      }
      return false;
    }

    lemma InstrGoesOn(st: State, x: Option<(Instr, nat)>)
      ensures !StepInstr(st, x).Stop?
    {}

    /** A function body: it must end exactly at `end`. */
    method ReadFunctionBody(end: nat) returns (ok: bool)
      requires end <= |data| && labelStack == [] && root == []
      modifies this`offset, this`root, this`labelStack
      ensures ok ==> offset == end && labelStack == []
      ensures forall o: Options, es: seq<Expr> | WellFormed(reader, es) && Nesting(es) < MAX_NESTING_DEPTH
                && Stands(data, old(offset), Bytes(o, EmitList(reader.types, es) + [Opcode1(EndOp)]))
                && end == old(offset) + |Bytes(o, EmitList(reader.types, es) + [Opcode1(EndOp)])|
                :: ok && root == Normal(reader.types, es)
    {
      hide Run, Stands, Bytes, EmitList, WellFormed, Nesting, Normal;
      ghost var start := offset;
      labelStack := [Label(FuncLabel, BodySlot)];
      assert St([]) == BodyStart(start);
      StartInStep(start);
      LockStep(reader, data, end, BodyStart(start));
      forall o: Options, es: seq<Expr> | WellFormed(reader, es) && Nesting(es) < MAX_NESTING_DEPTH
                && Stands(data, start, Bytes(o, EmitList(reader.types, es) + [Opcode1(EndOp)]))
                && end == start + |Bytes(o, EmitList(reader.types, es) + [Opcode1(EndOp)])|
        ensures Run(reader, data, end, BodyStart(start)) == Stop(State(end, [], [], Normal(reader.types, es)))
      {
        BodyRoundTrip(reader, o, data, start, end, es);
      }
      ok := ReadInstructions(end);
      ok := ok && offset == end;
    }
  }
}

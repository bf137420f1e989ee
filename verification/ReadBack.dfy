/** Every tree that the reader builds can be written again, and comes back up to the form of its
    signatures. */
module ReadBack {
  import opened Ir
  import opened Numbers
  import opened Leb128
  import opened BinaryWriter
  import opened Opcodes
  import opened Immediates
  import opened TreeCodec
  import opened TreeRoundTrip
  import opened BodyGrammar
  import opened BodyReading

  /** The decoder for other opcodes yields instructions that can be written. */
  ghost predicate OthersOk(g: Reader) {
    forall p: seq<byte>, i: nat {:trigger g.others(p, i)} ::
      g.others(p, i).Some? ==> Encodable(g.features, g.others(p, i).value.0)
  }

  // ----- immediates -----

  lemma {:induction false} LogPower(k: nat)
    ensures Log2(Pow2(k)) == k
  {
    if k > 0 { LogPower(k - 1); }
  }

  lemma UnsignedSmall(p: seq<byte>, i: nat)
    ensures Unsigned(p, i).Some? ==> Unsigned(p, i).value.0 < TWO_TO_32
  {
    hide GrammarU;
    if GrammarU(32, p, i).Some? { GrammarRange(32, p, i); Pow2Values(); }
  }

  lemma {:induction false} LabelsOk(p: seq<byte>, i: nat, n: nat)
    ensures Labels(p, i, n).Some? ==>
        |Labels(p, i, n).value.0| == n && forall v | v in Labels(p, i, n).value.0 :: VarOk(v)
    decreases n
  {
    hide Unsigned;
    if n > 0 {
      UnsignedSmall(p, i);
      if Unsigned(p, i).Some? { LabelsOk(p, Unsigned(p, i).value.1, n - 1); }
    }
  }

  lemma TableOk(g: Reader, p: seq<byte>, i: nat)
    ensures Table(p, i).Some? ==> WellFormedExpr(g, Table(p, i).value.0)
  {
    hide Unsigned, Labels;
    UnsignedSmall(p, i);
    if Unsigned(p, i).Some? {
      var n := Unsigned(p, i).value;
      LabelsOk(p, n.1, n.0);
      if Labels(p, n.1, n.0).Some? { UnsignedSmall(p, Labels(p, n.1, n.0).value.1); }
    }
  }

  lemma MemoryArgOk(g: Reader, p: seq<byte>, i: nat)
    ensures Memory(g, p, i).Some? ==>
        var m := Memory(g, p, i).value; MemoryOk(g.features, m.align, m.memidx, m.offset)
  {
    hide Unsigned, GrammarU, Pow2, Log2;
    if Memory(g, p, i).Some? {
      var a := Unsigned(p, i).value;
      LogPower(if a.0 / 64 % 2 == 1 then a.0 - 64 else a.0);
      UnsignedSmall(p, a.1);
      var k := if a.0 / 64 % 2 == 1 then Unsigned(p, a.1).value.1 else a.1;
      GrammarRange(if g.features.memory64 then 64 else 32, p, k);
      Pow2Values();
    }
  }

  lemma ConstantOk(g: Reader, b: byte, p: seq<byte>, i: nat)
    requires 0x41 <= b <= 0x44
    ensures Constant(b, p, i).Some? ==> Encodable(g.features, Const(Constant(b, p, i).value.0))
  {
    hide GrammarS;
    if b == 0x43 && i + 4 <= |p| { FloatSmall(p, i); }
    if b == 0x44 && i + 8 <= |p| { FloatSmall(p, i); FloatSmall(p, i + 4); }
  }

  lemma FloatSmall(p: seq<byte>, i: nat)
    requires i + 4 <= |p|
    ensures Float32(p, i) < TWO_TO_32
  {}

  lemma SimpleOk(b: byte)
    ensures Simple(b).Some? ==> Exists(SimpleOp(Simple(b).value)) && (forall f :: Encodable(f, Simple(b).value))
  {}

  lemma ShapesOk(b: byte)
    ensures LoadShape(b).Some? ==> LoadShape(b).value in LOADS
    ensures StoreShape(b).Some? ==> StoreShape(b).value in STORES
  {
    hide LoadShape, StoreShape, FromCode;
    AccessCodes(b);
    DecodedShapes(b);
  }

  lemma DecodedShapes(b: byte)
    ensures FromCode(b).Some? && FromCode(b).value.LoadOp? ==> FromCode(b).value.acc in LOADS
    ensures FromCode(b).Some? && FromCode(b).value.StoreOp? ==> FromCode(b).value.acc in STORES
  {}

  lemma IndexedOk(g: Reader, b: byte, x: nat)
    requires x < TWO_TO_32
    ensures WithIndex(b, x).Some? ==> WellFormedExpr(g, WithIndex(b, x).value) && NestingOf(WithIndex(b, x).value) == 0
  {}

  lemma InstructionOk(g: Reader, p: seq<byte>, i: nat)
    requires OthersOk(g) && i < |p|
    ensures Instruction(g, p, i).Some? ==>
        WellFormedExpr(g, Instruction(g, p, i).value.0) && NestingOf(Instruction(g, p, i).value.0) == 0
  {
    hide Simple, WithIndex, LoadShape, StoreShape, Constant, Memory, Table, Unsigned, MemoryOk, Exists;
    var b := p[i];
    SimpleOk(b);
    ShapesOk(b);
    UnsignedSmall(p, i + 1);
    TableOk(g, p, i + 1);
    TableFlat(p, i + 1);
    MemoryArgOk(g, p, i + 1);
    if 0x41 <= b <= 0x44 { ConstantOk(g, b, p, i + 1); }
    if Unsigned(p, i + 1).Some? { IndexedOk(g, b, Unsigned(p, i + 1).value.0); }
    SameIndex(b);
  }

  lemma TableFlat(p: seq<byte>, i: nat)
    ensures Table(p, i).Some? ==> NestingOf(Table(p, i).value.0) == 0
  {
    hide Unsigned, Labels;
  }

  /** Whether an opcode takes an index does not depend on the index. */
  lemma SameIndex(b: byte)
    ensures forall x: nat :: WithIndex(b, x).Some? <==> WithIndex(b, 0).Some?
  {}

  lemma SigOk(types: seq<FuncType>, p: seq<byte>, i: nat)
    ensures BlockSig(types, p, i).Some? ==> DeclOk(types, BlockSig(types, p, i).value.0)
  {
    hide GrammarS;
    if GrammarS(32, p, i).Some? { SignedRange(32, p, i); Pow2Values(); }
  }

  // ----- trees -----

  /** A list, inside `open` labels, that can be written. */
  predicate Writable(g: Reader, es: seq<Expr>, open: nat) {
    WellFormed(g, es) && open + Nesting(es) <= MAX_NESTING_DEPTH
  }

  predicate WritableExpr(g: Reader, e: Expr, open: nat) {
    WellFormedExpr(g, e) && open + NestingOf(e) <= MAX_NESTING_DEPTH
  }

  lemma WritableCons(g: Reader, e: Expr, es: seq<Expr>, open: nat)
    requires WritableExpr(g, e, open) && Writable(g, es, open)
    ensures Writable(g, [e] + es, open)
  {
    hide WellFormedExpr, NestingOf;
    assert ([e] + es)[1..] == es;
  }

  lemma {:induction false} SequenceWritable(g: Reader, p: seq<byte>, end: nat, i: nat, open: nat)
    requires OthersOk(g) && end <= |p| && open <= MAX_NESTING_DEPTH
    ensures Sequence(g, p, end, i, open).Some? ==>
        Writable(g, Sequence(g, p, end, i, open).value.es, open)
            && SmallEnding(Sequence(g, p, end, i, open).value.ending)
    decreases |p| - i, 2
  {
    hide One, EndingAt, Sequence, OthersOk, WritableExpr, Writable;
    SequenceIs(g, p, end, i, open);
    if i < end {
      if IsEnding(p[i]) {
        EndingSmall(p, i);
        NothingWritable(g, open);
      } else {
        OneWritable(g, p, end, i, open);
        var x := One(g, p, end, i, open);
        if x.Some? && i < x.value.1 <= |p| {
          SequenceWritable(g, p, end, x.value.1, open);
          var rest := Sequence(g, p, end, x.value.1, open);
          if rest.Some? { WritableCons(g, x.value.0, rest.value.es, open); }
        }
      }
    }
  }

  /** The index of an ending, if it has one, is a u32. */
  predicate SmallEnding(x: Ending) {
    match x
    case CatchOf(Some(t)) => t < TWO_TO_32
    case DelegateTo(n) => n < TWO_TO_32
    case _ => true
  }

  lemma EndingSmall(p: seq<byte>, i: nat)
    requires i < |p|
    ensures EndingAt(p, i).Some? ==> SmallEnding(EndingAt(p, i).value.0)
  {
    hide Unsigned;
    UnsignedSmall(p, i + 1);
  }

  lemma NothingWritable(g: Reader, open: nat)
    requires open <= MAX_NESTING_DEPTH
    ensures Writable(g, [], open)
  {}

  lemma {:induction false} OneWritable(g: Reader, p: seq<byte>, end: nat, i: nat, open: nat)
    requires OthersOk(g) && i < end <= |p| && open <= MAX_NESTING_DEPTH
    ensures One(g, p, end, i, open).Some? ==> WritableExpr(g, One(g, p, end, i, open).value.0, open)
    decreases |p| - i, 1
  {
    hide Sequence, Finish, BlockSig, Instruction, OthersOk, WellFormedExpr, NestingOf, DeclOk, Writable;
    if !IsBlock(p[i]) {
      InstructionOk(g, p, i);
    } else {
      var d := BlockSig(g.types, p, i + 1);
      SigOk(g.types, p, i + 1);
      if d.Some? && open < MAX_NESTING_DEPTH && i < d.value.1 <= |p| {
        SequenceWritable(g, p, end, d.value.1, open + 1);
        var x := Sequence(g, p, end, d.value.1, open + 1);
        if x.Some? { FinishWritable(g, p, end, i, open, d.value.0, x.value); }
      }
    }
  }

  lemma {:induction false} FinishWritable(g: Reader, p: seq<byte>, end: nat, i: nat, open: nat, d: BlockDecl, x: Item)
    requires OthersOk(g) && i < end <= |p| && open < MAX_NESTING_DEPTH && IsBlock(p[i])
    requires DeclOk(g.types, d) && Writable(g, x.es, open + 1) && SmallEnding(x.ending)
    ensures Finish(g, p, end, i, open, d, x).Some? ==>
        WritableExpr(g, Finish(g, p, end, i, open, d, x).value.0, open)
    decreases |p| - i, 0
  {
    hide Sequence, Clauses, OthersOk, WellFormed, Nesting, DeclOk, WellFormedCatches, NestingIn;
    NoNesting(g);
    match x.ending
    case Else =>
      if p[i] == 0x04 && i < x.next <= |p| { SequenceWritable(g, p, end, x.next, open + 1); }
    case CatchOf(tag) =>
      if p[i] == 0x06 && i < x.next <= |p| { ClausesWritable(g, p, end, x.next, open + 1, tag); }
    case _ =>
  }

  lemma NoNesting(g: Reader)
    ensures Nesting([]) == 0 && NestingIn([]) == 0 && WellFormed(g, [])
  {}

  /** Clauses, the first of which takes `tag`; if that is a small enough number. */
  lemma {:induction false} ClausesWritable(g: Reader, p: seq<byte>, end: nat, i: nat, open: nat, tag: Option<nat>)
    requires OthersOk(g) && end <= |p| && open <= MAX_NESTING_DEPTH && (tag.Some? ==> tag.value < TWO_TO_32)
    ensures var cs := Clauses(g, p, end, i, open, tag);
            cs.Some? ==>
              && cs.value.0 != [] && cs.value.0[0].tag == tag && WellFormedCatches(g, cs.value.0)
              && open + NestingIn(cs.value.0) <= MAX_NESTING_DEPTH
    decreases |p| - i, 3
  {
    hide Sequence, OthersOk, WellFormed, Nesting, WellFormedCatches, NestingIn;
    SequenceWritable(g, p, end, i, open);
    var x := Sequence(g, p, end, i, open);
    if x.Some? {
      LastClause(g, tag, x.value.es, open);
      if x.value.ending.CatchOf? && i < x.value.next <= |p| {
        ClausesWritable(g, p, end, x.value.next, open, x.value.ending.tag);
        var rest := Clauses(g, p, end, x.value.next, open, x.value.ending.tag);
        if rest.Some? && !(tag == None && x.value.ending.tag == None) {
          MoreClauses(g, tag, x.value.es, rest.value.0, open);
        }
      }
    }
  }

  lemma LastClause(g: Reader, tag: Option<nat>, es: seq<Expr>, open: nat)
    requires Writable(g, es, open) && (tag.Some? ==> tag.value < TWO_TO_32)
    ensures WellFormedCatches(g, [Catch(tag, es)]) && open + NestingIn([Catch(tag, es)]) <= MAX_NESTING_DEPTH
  {
    hide WellFormed, Nesting;
    assert [Catch(tag, es)][1..] == [];
    assert WellFormedCatches(g, []) && NestingIn([]) == 0;
  }

  lemma MoreClauses(g: Reader, tag: Option<nat>, es: seq<Expr>, rest: seq<Catch>, open: nat)
    requires Writable(g, es, open) && (tag.Some? ==> tag.value < TWO_TO_32)
    requires rest != [] && WellFormedCatches(g, rest) && open + NestingIn(rest) <= MAX_NESTING_DEPTH
    requires tag == None ==> rest[0].tag.Some?
    ensures WellFormedCatches(g, [Catch(tag, es)] + rest)
        && open + NestingIn([Catch(tag, es)] + rest) <= MAX_NESTING_DEPTH
  {
    hide WellFormed, Nesting;
    assert ([Catch(tag, es)] + rest)[1..] == rest;
  }

  /** On all bytes: what is read as a body can be written, and writing it and reading that again
      gives the same tree with its signatures in their normal form. */
  lemma ReadBack(g: Reader, o: Options, p: seq<byte>, end: nat, i: nat, q: seq<byte>)
    requires OthersOk(g) && end <= |p| && Body(g, p, end, i).Some?
    requires q == Bytes(o, EmitList(g.types, Body(g, p, end, i).value.0) + [Opcode1(EndOp)])
    ensures Body(g, q, |q|, 0) == Some((Normal(g.types, Body(g, p, end, i).value.0), |q|))
  {
    hide Sequence, OthersOk, WellFormed, Nesting, Bytes, EmitList, Normal;
    var es := Body(g, p, end, i).value.0;
    SequenceWritable(g, p, end, i, 1);
    assert q[0..0 + |q|] == q;
    WrittenMeans(g, o, q, 0, |q|, es);
  }
}

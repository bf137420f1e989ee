/** What single instructions do to the operands, variables and memories themselves, without the
    access functions that the semantics and the C machine have in common. */
module InstrMeaning {
  import opened Ir
  import opened Numbers
  import opened Wasm
  import opened Arithmetic

  // ----- variables and operands -----

  lemma StackMeans(env: Env, host: Host, m: Machine, below: seq<Value>, a: Value, b: Value, c: Value)
    requires m.stack == below + [a, b, c]
    ensures EvalInstr(env, host, Drop, m) == Next(m.(stack := below + [a, b]))
    ensures EvalInstr(env, host, Select, m) == Next(m.(stack := below + [if c.bits != 0 then a else b]))
    ensures EvalInstr(env, host, Nop, m) == Next(m)
  {
    assert m.stack[..|m.stack| - 1] == below + [a, b] && m.stack[..|m.stack| - 3] == below;
  }

  lemma ConstMeans(env: Env, host: Host, v: Value, m: Machine)
    ensures EvalInstr(env, host, Const(v), m) == Next(m.(stack := m.stack + [v]))
  {
    assert m.stack[..|m.stack| - 0] == m.stack;
  }

  lemma OperatorMeans(env: Env, host: Host, ty: Type, op: BinOp, m: Machine, below: seq<Value>, x: nat, y: nat)
    requires m.stack == below + [Value(ty, x), Value(ty, y)]
    ensures EvalInstr(env, host, Binary(ty, op), m) ==
              match BinResult(ty, op, x, y)
              case None => Trap(m)
              case Some(z) => Next(m.(stack := below + [Value(ty, z)]))
  {
    hide BinResult;
    assert m.stack[..|m.stack| - 2] == below;
  }

  lemma LocalsMean(env: Env, host: Host, x: nat, m: Machine, below: seq<Value>, v: Value)
    requires m.stack == below + [v] && x < |m.locals|
    ensures EvalInstr(env, host, LocalGet(x), m) == Next(m.(stack := m.stack + [m.locals[x]]))
    ensures EvalInstr(env, host, LocalSet(x), m) == Next(m.(stack := below, locals := m.locals[x := v]))
    ensures EvalInstr(env, host, LocalTee(x), m) == Next(m.(locals := m.locals[x := v]))
  {
    assert m.stack[..|m.stack| - 1] == below && m.stack[..|m.stack| - 0] == m.stack;
  }

  lemma GlobalsMean(env: Env, host: Host, x: nat, m: Machine, below: seq<Value>, v: Value)
    requires m.stack == below + [v] && x < |m.world.globals|
    ensures EvalInstr(env, host, GlobalGet(x), m) == Next(m.(stack := m.stack + [m.world.globals[x]]))
    ensures EvalInstr(env, host, GlobalSet(x), m)
        == Next(m.(stack := below, world := World(m.world.globals[x := v], m.world.mems)))
  {
    assert m.stack[..|m.stack| - 1] == below && m.stack[..|m.stack| - 0] == m.stack;
  }

  lemma CallMeans(env: Env, host: Host, f: nat, m: Machine, below: seq<Value>, args: seq<Value>)
    requires f < |env.funcs| && |args| == |env.funcs[f].params| && m.stack == below + args
    ensures EvalInstr(env, host, Call(f), m) ==
              match host(f, args, m.world)
              case Returned(vs, w) => Next(m.(stack := below + vs, world := w))
              case Threw(x, w) => Raise(x, m.(world := w))
              case HostTrap(w) => Trap(m.(world := w))
  {
    assert m.stack[|m.stack| - |args|..] == args && m.stack[..|m.stack| - |args|] == below;
  }

  // ----- memory -----

  /** A load records the address operand, traps beyond the end of its memory, and otherwise yields
      the number with the bytes there, sign-extended if it is a signed one. */
  lemma LoadInstrMeans(env: Env, host: Host, acc: Access, align: nat, k: nat, offset: nat, m: Machine,
      below: seq<Value>, a: nat, raw: nat, v: int)
    requires m.stack == below + [Value(I32, a)] && k < |m.world.mems|
    requires 0 < acc.bytes && 8 * acc.bytes <= Bits(acc.ty)
    requires var (mem, ea) := (m.world.mems[k], a + offset);
             ea + acc.bytes <= |mem| ==>
               && raw < Pow2(8 * acc.bytes) && (forall j | 0 <= j < acc.bytes :: mem[ea + j] == Byte(raw, j))
               && (acc.signed ==>
                     -(Pow2(8 * acc.bytes) / 2) <= v < Pow2(8 * acc.bytes) / 2
                         && (v - raw) % Pow2(8 * acc.bytes) == 0)
    ensures var m1 := m.(log := m.log + [Loaded(a)]);
            EvalInstr(env, host, Load(acc, align, k, offset), m) ==
              if a + offset + acc.bytes > |m.world.mems[k]| then Trap(m1)
              else Next(m1.(stack := below + [Value(acc.ty, if acc.signed then v % Modulus(acc.ty) else raw)]))
  {
    hide ReadMem, Byte, Pow2, Modulus;
    var (mem, ea) := (m.world.mems[k], a + offset);
    assert m.stack[..|m.stack| - 1] == below;
    LoadTraps(mem, acc, ea);
    if ea + acc.bytes <= |mem| { LoadMeans(mem, acc, ea, raw, v); }
  }

  /** A store records the address operand, traps beyond the end of its memory, and otherwise changes
      the bytes there to those of its operand and no other byte, memory or variable. */
  lemma StoreInstrMeans(env: Env, host: Host, acc: Access, align: nat, k: nat, offset: nat, m: Machine,
      below: seq<Value>, a: nat, x: Value)
    requires m.stack == below + [Value(I32, a), x] && k < |m.world.mems|
    ensures var (mem, ea, m1) := (m.world.mems[k], a + offset, m.(log := m.log + [Stored(a)]));
            var o := EvalInstr(env, host, Store(acc, align, k, offset), m);
            if ea + acc.bytes > |mem| then o == Trap(m1)
            else
              && o.Next? && |o.m.world.mems| == |m.world.mems| && |o.m.world.mems[k]| == |mem|
              && o == Next(m1.(stack := below, world := World(m.world.globals, m.world.mems[k := o.m.world.mems[k]])))
              && forall j | 0 <= j < |mem| ::
                   o.m.world.mems[k][j] == if ea <= j < ea + acc.bytes then Byte(x.bits, j - ea) else mem[j]
  {
    hide WriteMem, Byte;
    var (mem, ea) := (m.world.mems[k], a + offset);
    assert m.stack[..|m.stack| - 2] == below;
    StoreMeans(mem, acc, ea, x.bits, 0);
    if ea + acc.bytes <= |mem| {
      var r := WriteMem(mem, acc, ea, x.bits).value;
      forall j | 0 <= j < |mem| ensures |r| == |mem| && r[j]
          == if ea <= j < ea + acc.bytes then Byte(x.bits, j - ea) else mem[j] {
        StoreMeans(mem, acc, ea, x.bits, j);
      }
      SameSize(mem, acc, ea, x.bits);
    }
  }

  lemma SameSize(mem: seq<nat>, acc: Access, ea: nat, x: nat)
    requires ea + acc.bytes <= |mem|
    ensures |WriteMem(mem, acc, ea, x).value| == |mem|
  {
    ToBytesLength(x, acc.bytes);
  }

  // ----- exceptions -----

  /** The clause takes exceptions with that tag. */
  predicate Takes(c: Catch, tag: nat) { c.tag == None || c.tag == Some(tag) }

  /** An exception goes to the first clause that takes it, with its values as operands unless that
      is a catch_all, and is passed on if none does. */
  lemma {:induction false} HandlerPicks(env: Env, host: Host, cs: seq<Catch>, l: string, x: Exn, caught: Caught,
      m: Machine, fuel: nat, i: nat)
    requires i <= |cs| && (i < |cs| ==> Takes(cs[i], x.tag)) && forall j | 0 <= j < i :: !Takes(cs[j], x.tag)
    ensures EvalHandler(env, host, cs, l, x, caught, m, fuel) ==
              if i == |cs| then Raise(x, m)
              else EvalList(env, host, cs[i].exprs, caught[l := x],
                  m.(stack := if cs[i].tag == None then [] else x.args), fuel)
    decreases |cs|
  {
    hide EvalList;
    if i > 0 {
      assert !Takes(cs[0], x.tag);
      assert forall j | 0 <= j < i - 1 :: cs[1..][j] == cs[j + 1];
      HandlerPicks(env, host, cs[1..], l, x, caught, m, fuel, i - 1);
    }
  }
}

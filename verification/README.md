# WABT: proofs about lowering, the binary codec and the naming passes

A Dafny model of three connected parts of WABT, the WebAssembly Binary Toolkit, in this fork
with load/store tracing. `dafny verify dfyconfig.toml` checks the whole project.

## What is modelled

**The WebAssembly-to-C lowering (`src/c-writer.cc`).** `Ir` holds the expression trees that every
pass shares. `Wasm` gives them a meaning: a big-step stack semantics with traps, exceptions and
fuel for loop back edges only (section 4.4 of the WebAssembly Core Specification and the
exception-handling proposal in its `delegate`/`rethrow` form). `Validation` is the algorithm in
that specification's appendix, polymorphic stack included, `Typing` the types along the code that
can be reached, and `StackTypes` the type stack that the writer keeps, read off the expressions;
`ValidTyped` shows that the first two agree in both directions where everything can be reached.
`Arithmetic` and `InstrMeaning` say, independently of the functions that both sides compute with,
what numbers, memory accesses, single instructions and the choice of a handler mean.
`CLang` is the fragment of C that the writer emits: assignments to variables keyed by height and
type, `if`/`else`, `switch`, labels, `goto`, the unwind-target and try macros, and the tracing
statements, run by a small-step machine in which a goto searches the whole function. A try is one
brace block there, and a label with the statement behind it one statement. `Statements` says of a
body's expressions how many statements they become and whether every `else` has the one it needs.
`Lowering` specifies the emitted code and the writer's three stacks as functions; the class
`CWriter.CWriter` is the writer itself, with its stacks as fields and its loops. Its methods return
None where an assertion of the source about the type stack fails, are proved to do so exactly when
`StackTypes` says, and otherwise to compute what `Lowering` specifies. `LoweringText` and
`LoweringSound` tie the emitted text to the expressions, `LoweringRel` to `LoweringCorrect` hold
the simulation proof, one construct at a time, and `LoweringMain` the theorems about whole
functions. Their domain `Valid` is four conditions on the body's expressions: it is validated, its
labels are distinct (`Fresh`), no block that can be reached changes the types below it (`Keeps`,
which includes that no assertion fails, `Fits`), and its text is well bound (`WellBound`).
`LoweringMain.SoundExactly` shows that the last two are exact for the text, `LoweringLimits` and
`Reachable` when the conditions hold and what happens when they do not, and `LoweringExamples` has
a body for each way to fail one.

**The binary codec (`src/leb128.cc`, `src/stream.cc`, `src/binary-writer.cc`,
`src/binary-reader.cc`, `src/binary-reader-ir.cc`).** `Leb128` proves the writers' loops and the
readers against the grammar of section 5.2.2 of the WebAssembly Core Specification.
`Streams.Stream` is the output buffer with its in-place edits. `BinaryWriter.Writer` guesses sizes,
fixes them up, records and shifts relocations, deletes the DataCount section and inserts metadata
sections; `Backpatching` says when the shifts do no harm, and `Relocations` what is true of the
finished file. `Opcodes`, `Immediates`, `TreeCodec` and `TreeRoundTrip` take instruction trees to
bytes and back; `TreeLockStep` keeps the reader's two stacks together on arbitrary input;
`TreeWriter` and `BinaryReader` are the imperative writer and reader. `TreeRelocs` reads the size
and the relocations of a tree's bytes off the tree. `BodyGrammar` is the binary format of bodies as
a grammar with its bytes spelt out, `BodyReading` proves that the reader accepts exactly that
grammar, and `ReadBack` that all it builds can be written again. `Sections` is the loop over a
file's sections, `SectionOrder` says from the file alone which files it accepts and
how far it gets in others, and `WrittenFiles`
what it makes of those that the writer puts out.

**The visitor and the naming passes (`src/expr-visitor.cc`, `src/generate-names.cc`,
`src/apply-names.cc`).** `ExprVisitor.Visitor` is the four-stack machine, proved equal to recursion
in its callbacks, and `VisitOrder` an automaton that accepts these callbacks and no others.
`Naming` generates label names, applies them to branches and shows that the lowering then finds the
same labels; `NamePasses` shows that the callbacks of the two passes, made in the visitor's order,
do the same. `Mangling` and `InitExpr` are the C writer's name mangling and constant expressions;
`Collisions` says which names share an identifier.

## Where the code and its documentation disagree

- The comment above `Mangle` (src/c-writer.cc:744-751) promises distinct identifiers for distinct
  names. The automaton drops a `0` that follows a `0` (src/c-writer.cc:789-791), so that `0!` and
  `00x21` collide. `Mangling.MangleDecodes` gives the exact condition under which a name survives,
  `Mangling.NoFactorNoClash` that names without `00x` do, and `Collisions.SharedExactly` which
  names share their identifier with another one.
- A `catch_all` behind another clause is written after a bare `else` (src/c-writer.cc:3308-3343),
  which governs one statement only. `Statements.WellBoundCatches` is the condition on the
  expressions: such a clause is written as a single statement, or as at least one when no clause in
  front of it comes to its end. `LoweringMain.SoundExactly` shows that it is exact for the text and
  `LoweringLimits.TakenRunsOn` what a taken clause does when there is more than one.
  `LoweringExamples.LateCatchAllBreaks` is a body that goes wrong, `LoweringExamples.EmptyCatchAll`
  one for which the text is not C.
- Write(ExprList) returns after the other unconditional branches but not after throw and rethrow
  (src/c-writer.cc:3928-3958): what follows is written with the type stack the throw leaves, while
  validation goes on with a polymorphic one. `CWriter.WriteFunc` shows that the writer's assertions
  hold if and only if `StackTypes.StackList` finds no operand missing, and
  `LoweringExamples.DropBehindThrow` is a validated body on which one fails. Without a failing
  assertion a block in such code can still change the types below an enclosing block, so that what
  follows reads other variables: `LoweringExamples.DipBreaks`, and hence the condition `Keeps`.
  `LoweringLimits.ThrowsLastValid` shows that neither can happen with nothing behind a throw.
- A label is only followed by a statement of its own when it closes a block. A loop's label in front
  of a body that writes nothing can be the last thing before a closing brace, which is C only from
  C23 on; `WellBound` refuses that too.
- The relocation shift after a body-size fixup (src/binary-writer.cc:1611-1618) walks the current
  reloc section, even one of an earlier section. `Relocations.RelocationsSurvive` shows that the
  relocations of the finished file are right if and only if no such shift finds one in its range,
  and `Relocations.StaleShift` is a module where one is off by a byte.
- `seen_section_code` (src/binary-reader.cc:2902-2908) only chooses the error message; see
  `Sections.SeenIsOrdered`.

## Model

| member | source | states |
|---|---|---|
| `LoweringMain.Simulates` | src/c-writer.cc:3058-3091 | For every body in `Valid`, start state and fuel: if the WebAssembly run ends, so does the C program, in the matching state (same values, or same escaping exception, or trap; same locals, globals and memories; the printed records are the access log); if the run is cut off at `fuel` back edges, the C program is still running after at least `fuel` steps, with the same locals, globals, memories and records |
| `LoweringMain.SoundExactly` | src/c-writer.cc:3058-3091 | For every validated body with distinct labels on which no assertion of the writer fails: what is written is C, every `else` governs the clause it should, and no block that can be reached changes the types below it, if and only if the body meets the conditions of `Valid` on its expressions |
| `LoweringMain.Forward` | src/c-writer.cc:3432-3637 | Every terminating WebAssembly execution is matched by a terminating C execution with the same result and effects |
| `LoweringMain.Backward` | src/c-writer.cc:3432-3637 | Whatever the C program does when it stops is what the WebAssembly body does: the emitted code is never stuck and has no behaviour of its own |
| `LoweringMain.Divergence` | src/c-writer.cc:3621-3637 | The C program runs for ever exactly when the WebAssembly body does |
| `Wasm.ResultUnique` | src/c-writer.cc:3432-3637 | Two fuels that suffice give the same result of a body, so "the result of the body", which the lowering has to meet, is well defined |
| `LoweringMain.TracingTransparent` | src/c-writer.cc:5062-5161 | With `s_trace` on and off the two emitted programs stop in the same way with the same values or exception and the same locals and memory; the log on both streams is, in execution order, one L or S record per attempted plain access, holding the base plus the address operand before the static offset is added, and is empty when off |
| `LoweringMain.TraceSoFar` | src/c-writer.cc:5062-5161 | Whether or not the run ends: after every number of steps the printed records are the first of those for the accesses attempted so far, and all of these are printed in time |
| `Statements.UntracedBound` | src/c-writer.cc:5062-5161 | A body whose text is well bound with tracing, where every plain access is three statements, is well bound without |
| `LoweringMain.FuncReturns` | src/c-writer.cc:3058-3091 | The code after the implicit function label returns exactly the result variables at height 0 |
| `LoweringCorrect.SimList` | src/c-writer.cc:3432-3637 | The invariant over a list of instructions at any nesting, entered in a matching state: it goes on, branches, raises, delegates, traps or runs on exactly as the WebAssembly list does, and code after an unconditional branch is dropped without effect |
| `LoweringCorrect.SimExpr` | src/c-writer.cc:3432-3974 | The same for one instruction of any kind |
| `LoweringCorrect.SimBlock` | src/c-writer.cc:3245-3255 | A block: its parameters stay in place, a branch to its label arrives behind it with the results at its base height |
| `LoweringCorrect.SimIterate` | src/c-writer.cc:3621-3637 | A loop: each back edge lands on its label with the parameters at the base height and at least one step taken |
| `LoweringCorrect.SimLoop` | src/c-writer.cc:3621-3637 | A loop as a whole, entry and exit included |
| `LoweringCorrect.SimIf` | src/c-writer.cc:3575-3595 | Both arms of an if are written with the same starting type stack and reach the same end |
| `LoweringCorrect.IfResult` | src/c-writer.cc:3575-3595 | The type stack after an if is its base plus its results, whether or not an else arm was written |
| `LoweringCorrect.SimTry` | src/c-writer.cc:3257-3430 | A try with catches or a delegate, whatever its body does |
| `LoweringCorrect.SimCaught` | src/c-writer.cc:3286-3337 | A raised exception enters the handlers with the unwind target of the enclosing try in force |
| `LoweringCorrect.SimHandler` | src/c-writer.cc:3308-3364 | The clauses are tried in order; the first with the exception's tag, or catch_all, runs with the payload unpacked at the try's base height, and otherwise the exception is thrown on, wherever the writer's output is sound |
| `LoweringCorrect.SimTaken` | src/c-writer.cc:3308-3364 | A clause that takes the exception, whatever comes behind its `else`: it runs, and if its end is reached goes on with the part of the chain that the `else` does not govern |
| `LoweringTry.LandCatch` | src/c-writer.cc:3286-3306 | The landing code of a catch restores the enclosing unwind target and saves the exception if a rethrow needs it |
| `LoweringTry.LandDelegate` | src/c-writer.cc:3384-3430 | A delegated exception arrives at the handler of the try the target label selects (the label's own when it is a try in its body, the try around it otherwise), the caller's when the target is the function or no try is open there |
| `LoweringTry.Unpack` | src/c-writer.cc:3345-3361 | Unpacking writes the payload at the base height in order and touches nothing below |
| `LoweringTry.DelegateRun` | src/c-writer.cc:3384-3417 | The goto or unwind written for a delegate leaves values below, locals, memory and the exception as they are |
| `LoweringLeaf.SimBr` | src/c-writer.cc:3443-3446 | A branch reaches the target label with its operands on the label's base |
| `LoweringLeaf.SimBrIf` | src/c-writer.cc:3448-3452 | A conditional branch taken is the branch, not taken leaves the remaining stack alone |
| `LoweringLeaf.SimBrTable` | src/c-writer.cc:3454-3467 | The switch selects target `i` for index `i` and the default for every index from the table length up |
| `LoweringLeaf.SimThrow` | src/c-writer.cc:3366-3373 | A throw jumps to the innermost open try's handler, or leaves for the caller when none is open |
| `LoweringLeaf.SimThrowExpr` | src/c-writer.cc:3928-3948 | throw takes its tag's payload off the stack in order and raises it |
| `LoweringLeaf.SimRethrow` | src/c-writer.cc:3950-3958 | rethrow raises the exception that the named try caught, not a later one |
| `LoweringInstr.SimInstr` | src/c-writer.cc:3435-3618 | Every plain instruction of `Ir`, which has the binary operators and comparisons of the integer types but no unary or conversion operators, does to the stack variables what it does to the operand stack, traps included |
| `LoweringInstr.SimLoad` | src/c-writer.cc:5062-5119 | A load records the access, then reads or traps |
| `LoweringInstr.SimStore` | src/c-writer.cc:5122-5161 | A store records the access, then writes or traps |
| `LoweringInstr.SimCall` | src/c-writer.cc:3469-3500 | A call passes its operands in order, returns its results at the height of its first operand, and unwinds to the right handler when the callee throws |
| `LoweringInstr.SimUnwind` | src/c-writer.cc:3257-3284 | An unwinding callee lands in the handler of the innermost open try, the caller's when none is open |
| `LoweringInstr.ParallelMove` | src/c-writer.cc:1147-1161 | The sequential copies of a branch act as one simultaneous copy for every overlap of source and target and every type vector; no variable outside the target heights changes |
| `LoweringInstr.RunMoves` | src/c-writer.cc:1147-1161 | The emitted assignments do, one step each, what the sequential copies do |
| `LoweringBranch.SimMoves` | src/c-writer.cc:1147-1161 | After the moves the top operands stand on the label's base and everything below is as before, also when nothing has to move |
| `LoweringBranch.SimUnwindCode` | src/c-writer.cc:2989-2998 | Leaving tries by a branch restores exactly the unwind target in force at the label |
| `LoweringBranch.SimGoto` | src/c-writer.cc:1147-1173 | Moves, unwinding and goto together arrive at the code behind the label |
| `LoweringBranch.SimCases` | src/c-writer.cc:3454-3467 | The same from the selected case of a switch |
| `LoweringBranch.TargetFound` | src/c-writer.cc:601-624 | FindLabel finds the label the WebAssembly rule selects, the function label included |
| `LoweringParts.TryParts` | src/c-writer.cc:3257-3337 | The labels written for a try are found where control has to go: behind it, and at its landing |
| `LoweringParts.IfParts` | src/c-writer.cc:3575-3595 | The same for an if |
| `LoweringParts.LoopParts` | src/c-writer.cc:3621-3637 | The same for a loop: the label stands before the body |
| `CNumbers.BinaryAgrees` | src/c-writer.cc:4112-4254 | On the two integer types, the infix operators, the bitwise operators, shift masks, and the division, remainder and rotation macros compute the WebAssembly operators on all operands, trap conditions included |
| `Arithmetic.UnsignedMeans` | src/c-writer.cc:4146-4236 | The operators that both sides compute with, which are written as iteration, are addition, subtraction and multiplication modulo the width, division, remainder, and multiplication and division by a power of two |
| `Arithmetic.SignedIs` | src/c-writer.cc:4169-4193 | For every type and bit pattern: the signed reading is the one number between minus and plus half the modulus that is congruent to the pattern |
| `Arithmetic.SignedMeans` | src/c-writer.cc:4169-4228 | On the numbers that the operands stand for: signed division traps on a zero divisor and on the smallest number divided by -1, signed remainder on a zero divisor only, otherwise they are TruncDiv and TruncRem; the arithmetic shift divides by a power of two, rounding down |
| `Arithmetic.TruncMeans` | src/c-writer.cc:4169-4193 | TruncDiv and TruncRem divide toward zero: the remainder is smaller than the divisor and has the dividend's sign |
| `Arithmetic.BitwiseMeans` | src/c-writer.cc:4200-4213 | And, or and xor, at every bit |
| `Rotation.RotlAgrees` | src/template/wasm2c.declarations.c:327-335 | The two shifts of ROTL put together are a rotation to the left by the count modulo the width, one place at a time, for every count, also one where the second shift count is 0 |
| `Rotation.RotrAgrees` | src/template/wasm2c.declarations.c:329-335 | The same to the right |
| `CNumbers.CompareAgrees` | src/c-writer.cc:4614-4675 | The comparisons of the two integer types and the signed casts compute the WebAssembly relations |
| `Arithmetic.CompareMeans` | src/c-writer.cc:4614-4675 | A comparison takes two operands and leaves 1 if the relation holds, of the bits or of the numbers they stand for, and 0 if not |
| `Arithmetic.EqzMeans` | src/c-writer.cc:4876-4879 | eqz leaves 1 for zero bits and 0 for all others |
| `Arithmetic.LoadMeans` | src/c-writer.cc:5062-5119 | A load yields the number with the bytes at the address, the least significant one first; a signed one is congruent to the number that those bits stand for |
| `Arithmetic.StoreMeans` | src/c-writer.cc:5122-5161 | A store puts each byte of its operand at its address and changes no other; it fails exactly beyond the end |
| `Arithmetic.LoadStored` | src/c-writer.cc:5062-5161 | A load behind a store of the same shape and address gives the operand back, cut to the width of the access |
| `InstrMeaning.ConstMeans` | src/c-writer.cc:3546-3552 | A constant is pushed |
| `InstrMeaning.StackMeans` | src/c-writer.cc:3875-3886 | drop takes one operand, select the first or the second of three by the third, nop none |
| `InstrMeaning.OperatorMeans` | src/c-writer.cc:4146-4254 | A binary operator replaces its operands, in order, by its result, or traps |
| `InstrMeaning.LocalsMean` | src/c-writer.cc:3601-3619 | Locals are read and replaced at their index and nowhere else |
| `InstrMeaning.GlobalsMean` | src/c-writer.cc:3561-3573 | Globals are read and replaced at their index and nowhere else |
| `InstrMeaning.CallMeans` | src/c-writer.cc:3469-3500 | A callee gets the operands in order and the world as it is; its results stand where the operands were |
| `InstrMeaning.LoadInstrMeans` | src/c-writer.cc:5062-5119 | A load records its address operand, traps beyond the end of the memory it names, and otherwise yields what stands there at operand plus offset, sign-extended if it is a signed one |
| `InstrMeaning.StoreInstrMeans` | src/c-writer.cc:5122-5161 | A store records its address operand, traps beyond the end, and otherwise changes exactly the bytes of its access in the memory it names |
| `InstrMeaning.HandlerPicks` | src/c-writer.cc:3308-3364 | An exception goes to the first clause with its tag or without one, with its values as operands only in the first case, and is passed on if there is none |
| `ValidTyped.StraightValidated` | src/c-writer.cc:3432-3637 | Code with nothing behind its transfers of control is validated if and only if it is typed |
| `LoweringShape.FollowsList` | src/c-writer.cc:3432-3637 | Where the end of a list can be reached, the writer's type stack there is that of the typing, above any enclosing stack, if the written code is sound |
| `LoweringShape.GrownList` | src/c-writer.cc:3432-3637 | Writing a list leaves the label and try stacks as they were, except that labels may become used |
| `LoweringShape.ListLabels` | src/c-writer.cc:3432-3637 | The labels defined by the code of a list are names of the list |
| `LoweringText.StackIs` | src/c-writer.cc:564-585 | The writer's type stack after a list, where none of its assertions fails, is the one the analysis of the expressions gives |
| `StackTypes.KeepList` | src/c-writer.cc:564-585 | Asking that blocks keep the types below them never changes the analysis, it only refuses more |
| `LoweringText.MarkedList` | src/c-writer.cc:601-629 | A label becomes used exactly if a branch that is written names it |
| `LoweringSound.ListAlike` | src/c-writer.cc:3432-3637 | What is written for a list has statements, and ends in a label, exactly if the expressions say so, from any state |
| `LoweringSound.ListEqual` | src/c-writer.cc:3432-3637 | From an empty stack it is a single statement exactly if the expressions say so |
| `LoweringSound.LastEqual` | src/c-writer.cc:3308-3364 | The same of what is written behind the `else` of a clause |
| `LoweringSound.SoundList` | src/c-writer.cc:3432-3637 | What is written for a list at any nesting is sound exactly if the list is well bound and, where it can be reached, keeps the types below its blocks |
| `Validation.ListAgrees` | src/c-writer.cc:3432-3637 | Where control can reach, validation on the polymorphic stack of the WebAssembly Core Specification and the typing that the simulation proof uses give the same stacks |
| `Validation.ValidScoped` | src/c-writer.cc:601-624 | In a validated list, reachable or not, every branch, rethrow and delegate names an open label |
| `Reachable.ListStays` | src/c-writer.cc:3928-3958 | In typed code with nothing behind a throw no assertion fails and every block keeps the types below it |
| `LoweringLimits.ThrowsLastValid` | src/c-writer.cc:3928-3958 | For every validated body with distinct labels and nothing behind a throw or rethrow, the domain of the main theorems is exactly the well-bound bodies |
| `LoweringLimits.TakenRunsOn` | src/c-writer.cc:3308-3364 | For every chain, exception and state: a taken clause that comes to its end goes on with what its `else` does not govern, and there is something left exactly if the expressions behind the `else` are not written as a single statement |
| `LoweringExamples.LateCatchAllBreaks` | src/c-writer.cc:3308-3343 | A concrete validated body, refused by `WellBound` alone, with a catch_all behind a catch for which the emitted code leaves a different local |
| `LoweringExamples.EmptyCatchAll` | src/c-writer.cc:3308-3343 | A concrete validated body, refused by `WellBound` alone, for which nothing is written between an `else` and a closing brace |
| `LoweringExamples.DropBehindThrow` | src/c-writer.cc:3928-3958 | A concrete validated body, refused by `Fits`, on which an assertion of the writer about its type stack fails |
| `LoweringExamples.DipBreaks` | src/c-writer.cc:3928-3958 | A concrete validated body on which no assertion fails and whose text is well bound, refused by `Keeps` alone: the emitted code sets a local to a different value |
| `CWriter.CWriter.OpenLabel` | src/c-writer.cc:587-599 | The label records its kind, its branch signature (parameters for a loop, results otherwise) and both stack heights |
| `CWriter.CWriter.Find` | src/c-writer.cc:601-624 | The label found is the one of the specification, and only it is marked used |
| `CWriter.CWriter.WriteLabelDecl` | src/c-writer.cc:1175-1178 | A label is written only when it was used |
| `CWriter.CWriter.WriteMoves` | src/c-writer.cc:1147-1161 | The loop writes the copies bottom up |
| `CWriter.CWriter.WriteUnwindTryCatchStack` | src/c-writer.cc:2989-2998 | One restore when tries are left, none otherwise |
| `CWriter.CWriter.WriteGotoLabel` | src/c-writer.cc:1147-1173 | Code and new state of a branch; the source's assertions hold exactly if the label's operands are on the stack above its height |
| `CWriter.CWriter.WriteBrTable` | src/c-writer.cc:3454-3467 | All cases and the default in order |
| `CWriter.CWriter.WriteInstr` | src/c-writer.cc:3435-3618 | Case by case, code and type stack of a plain instruction; an assertion about the type stack fails exactly if an operand is missing |
| `CWriter.CWriter.WriteCall` | src/c-writer.cc:3469-3500 | Arguments from the top of the stack in order, results at the height of the first argument; fails exactly if an argument is missing |
| `CWriter.CWriter.WriteThrowExpr` | src/c-writer.cc:3928-3948 | The exception is loaded from the top of the stack, which is left as it is |
| `CWriter.CWriter.WriteThrow` | src/c-writer.cc:3366-3373 | Code of a throw; the try it goes to is marked used |
| `CWriter.CWriter.WriteExprList` | src/c-writer.cc:3432-3974 | For every list, typed or not: the assertions about the type stack all hold if and only if the analysis of the expressions finds no operand missing, and then the loop writes the specified code in the specified state, stops after an unconditional branch, and collects exactly the tries that need a saved exception |
| `CWriter.CWriter.WriteExpr` | src/c-writer.cc:3432-3974 | The same for one instruction |
| `CWriter.CWriter.OpenBlock` | src/c-writer.cc:3245-3250 | Entering a block, loop or if: parameters dropped before the label is pushed and put back above it |
| `CWriter.CWriter.CloseBlock` | src/c-writer.cc:3251-3255 | Leaving: type stack reset to the mark, label declared if used, results pushed |
| `CWriter.CWriter.WriteBlock` | src/c-writer.cc:3245-3255 | The specified code of a block |
| `CWriter.CWriter.WriteLoop` | src/c-writer.cc:3621-3637 | The specified code of a loop, its label always written |
| `CWriter.CWriter.WriteIf` | src/c-writer.cc:3575-3595 | The specified code of an if |
| `CWriter.CWriter.WriteElse` | src/c-writer.cc:3586-3590 | An else arm starts from the if's parameters |
| `CWriter.CWriter.BeginTry` | src/c-writer.cc:3257-3284 | Body, landing label and the state in which the handlers are written |
| `CWriter.CWriter.WriteTryCatch` | src/c-writer.cc:3286-3337 | The specified code of a try with clauses, one brace block in all |
| `CWriter.CWriter.WriteCatches` | src/c-writer.cc:3308-3330 | The chain of clauses up to the first catch_all, each behind the `else` as it is written |
| `CWriter.CWriter.WriteTryDelegate` | src/c-writer.cc:3384-3430 | The specified code of a try with a delegate |
| `CWriter.CWriter.WriteDelegate` | src/c-writer.cc:3389-3417 | The jump or unwind of a delegate, and which try it marks used |
| `CWriter.CWriter.WriteFunc` | src/c-writer.cc:3058-3091 | For every body: no assertion about the type stack fails if and only if the body fits, and then the code is the specified one |
| `Leb128.ReadU32IsGrammar` | src/leb128.cc:182-209 | On every byte string and position the unsigned 32-bit reader accepts exactly the encodings of section 5.2.2 of the WebAssembly Core Specification, with their value and length |
| `Leb128.ReadU64IsGrammar` | src/leb128.cc:211-253 | The same for 64 bits |
| `Leb128.ReadS32IsGrammar` | src/leb128.cc:255-289 | The signed 32-bit reader accepts exactly the signed encodings, with the two's complement pattern of their value |
| `Leb128.ReadS64IsGrammar` | src/leb128.cc:291-345 | The same for 64 bits |
| `Leb128.LoopU` | src/leb128.cc:36-65 | The unsigned writing loop leaves the specified bytes and stays in the buffer; every wide enough buffer will do |
| `Leb128.LoopS` | src/leb128.cc:109-146 | The signed writing loop, same |
| `Leb128.U32Leb128Length` | src/leb128.cc:28-35 | The predicted length is the length written |
| `Leb128.RoundTripU32` | src/leb128.cc:60-65 | Every value reads back unchanged at any position, consuming exactly the bytes written, at most 5 |
| `Leb128.RoundTripU64` | src/leb128.cc:137-142 | Every 64-bit value, at most 10 bytes |
| `Leb128.RoundTripS32` | src/leb128.cc:109-131 | Every 32-bit pattern through the signed form, at most 5 bytes |
| `Leb128.RoundTripS64` | src/leb128.cc:144-146 | Every 64-bit pattern through the signed form, at most 10 bytes |
| `Leb128.ShortestU` | src/leb128.cc:36-65 | No accepted unsigned encoding of a value is shorter than the one written |
| `Leb128.ShortestS` | src/leb128.cc:109-131 | No accepted signed encoding of a value is shorter than the one written |
| `Leb128.LengthU` | src/leb128.cc:60-65 | The length bound of the loop encodings |
| `Leb128.LengthS` | src/leb128.cc:109-131 | The length bound of the signed loop encodings |
| `Leb128.FixedU32Reads` | src/leb128.cc:97-107 | The five-byte form reads back as the same value |
| `Leb128.FixedS32Reads` | src/leb128.cc:148-160 | The signed five-byte form reads back as the same pattern |
| `Leb128.SignedThroughUnsigned` | src/leb128.cc:109-131 | A signed encoding of a value below 2^31 reads the same through the unsigned reader |
| `Leb128.SignedAboveUnsigned` | src/leb128.cc:109-131 | At 2^31 it does not: the unsigned reader refuses it |
| `Streams.Stream.WriteDataAt` | src/stream.cc:39-51 | Overwrites in place, zero-filling a gap; leaves the offset alone |
| `Streams.Stream.WriteData` | src/stream.cc:53-59 | Writes at the offset and advances it |
| `Streams.Stream.MoveData` | src/stream.cc:61-71 | A memmove of the stated range |
| `Streams.Stream.Truncate` | src/stream.cc:73-85 | Cuts the data and pulls the offset back |
| `Streams.OverwrittenAt` | src/stream.cc:39-51 | Byte by byte: a write puts its bytes at their place, leaves the others, and fills a gap with zeros |
| `Streams.MovedAt` | src/stream.cc:61-71 | Byte by byte: a move copies a range as it was before |
| `Streams.FixupEdit` | src/stream.cc:39-71 | Moving the payload and overwriting the guess replaces the guessed field and nothing else |
| `Streams.RemoveEdit` | src/stream.cc:61-85 | Moving down and truncating deletes exactly the range |
| `Streams.InsertEdit` | src/stream.cc:39-71 | Moving up and overwriting inserts exactly the bytes |
| `BinaryWriter.Writer.WriteU32Leb128Space` | src/binary-writer.cc:487-496 | One placeholder byte, or five |
| `BinaryWriter.Writer.WriteFixupU32Leb128Size` | src/binary-writer.cc:498-518 | Prefix and payload are intact, the length field between them holds the payload length, and the returned delta is its growth |
| `BinaryWriter.Writer.AddReloc` | src/binary-writer.cc:615-635 | A new reloc section when the current one is another section's; the relocation is at the current payload offset; an index with no symbol records nothing |
| `BinaryWriter.Writer.WriteChunk` | src/binary-writer.cc:637-668 | Bytes and relocation of one index, fixed width when relocatable |
| `BinaryWriter.Writer.WriteSection` | src/binary-writer.cc:537-570 | A section is its code, its length and its content; its relocations are counted from its payload |
| `BinaryWriter.Writer.WriteBody` | src/binary-writer.cc:1596-1619 | One function body with its size fixed up and the current reloc section shifted |
| `BinaryWriter.Writer.WriteBodies` | src/binary-writer.cc:1596-1619 | All bodies in order |
| `BinaryWriter.Writer.WriteCodeSection` | src/binary-writer.cc:1589-1621 | The code section as a whole |
| `BinaryWriter.Writer.WriteUpToCode` | src/binary-writer.cc:1580-1587 | Where DataCount stands is remembered |
| `BinaryWriter.Writer.RemoveDataCount` | src/binary-writer.cc:1624-1650 | Exactly the DataCount bytes go and the last section's number goes down in every reloc section |
| `BinaryWriter.Writer.WriteCodeMetadataSections` | src/binary-writer.cc:1763-1808 | The metadata sections go exactly in front of the code and the code section's number goes up |
| `BinaryWriter.Writer.WriteModule` | src/binary-writer.cc:1316-1650 | The whole file and all reloc sections |
| `BinaryWriter.Writer.ShiftAll` | src/binary-writer.cc:1611-1618 | The shifting loop moves the relocations in the body's range and no other |
| `BinaryWriter.Writer.Renumber` | src/binary-writer.cc:1642-1648 | The renumbering loop changes the sections with that number and no other |
| `Relocations.RelocationsSurvive` | src/binary-writer.cc:1580-1808 | For every module: in the finished file every section with an index to record has exactly one reloc section, which names its final position and holds exactly that section's relocations, and there is no other reloc section, if and only if the code section's fixups find no stale relocation in their range |
| `Relocations.RelocsExactly` | src/binary-writer.cc:637-668 | A section's relocations are one for each of its indices that has a symbol, at that index's offset, and no other |
| `Relocations.IndexReads` | src/binary-writer.cc:637-668 | At a relocation's offset the five-byte LEB of its index is read back |
| `Relocations.StaleShift` | src/binary-writer.cc:1611-1618 | A concrete valid module with a global that is initialised from an imported one and a first body of 128 bytes without any index: in the finished file the relocation of `global.get` in the Global section is one byte off its index |
| `Relocations.FileIsSections` | src/binary-writer.cc:1580-1808 | The finished file is the header and the old sections with DataCount removed when unused and the metadata inserted before the code, and nothing else |
| `Backpatching.CodeRelocsSurvive` | src/binary-writer.cc:1596-1621 | After all body fixups the code section has one reloc section with every relocation at its final offset, and the earlier reloc sections are as before, under the quiet condition |
| `Backpatching.QuietExactly` | src/binary-writer.cc:1611-1618 | The earlier reloc sections are left alone if and only if no stale shift hits: the exact condition under which walking the current reloc section, whichever it is, does no harm |
| `Backpatching.StaleBody` | src/binary-writer.cc:1611-1618 | A body that records nothing disturbs the current reloc section exactly when its size field grows and some foreign offset lies in its range |
| `Backpatching.OwnBodies` | src/binary-writer.cc:1596-1621 | When the current reloc section is Code's own, no condition is needed |
| `Backpatching.QuietAtStart` | src/binary-writer.cc:1611-1618 | With no earlier relocations the condition always holds |
| `Backpatching.NotQuiet` | src/binary-writer.cc:1611-1618 | Where the condition fails, some relocation of an earlier section ends above where it was recorded |
| `Relocations.RemovalExact` | src/binary-writer.cc:1624-1650 | Deleting DataCount keeps every reloc section on its section |
| `Relocations.MetasExact` | src/binary-writer.cc:1763-1808 | Inserting the metadata sections keeps every reloc section on its section |
| `Relocations.SizeReadsBack` | src/binary-writer.cc:487-518 | Either size form reads back as the exact payload length, with the payload right behind it |
| `Opcodes.CodeDecodes` | include/wabt/opcode.def:39-170 | The opcodes of the instructions of `Ir`, a part of the cited table, have distinct codes: every code decodes to its own opcode |
| `Immediates.InstrReads` | src/binary-writer.cc:684-1020 | A plain instruction's bytes decode to that instruction and exactly those bytes |
| `Immediates.MemoryReads` | src/binary-reader.cc:463-487 | Alignment, memory index flag and offset, 32 or 64 bits, read back |
| `Immediates.IndexReads` | src/binary-writer.cc:637-668 | An index reads back with or without relocation |
| `TreeRoundTrip.BodyRoundTrip` | src/binary-writer.cc:709-1156 | Reading the bytes of a body plus End gives the same tree with normalised block signatures, consumes exactly those bytes and leaves no label open |
| `BodyReading.ReadsExactly` | src/binary-reader.cc:683-1872 | On all bytes: reading a function body succeeds if and only if the grammar of section 5.4 of the WebAssembly Core Specification, with the bytes spelt out and every LEB128 encoding allowed, has a body there, and then with the tree that the grammar gives and the cursor behind it |
| `BodyReading.BlockTypeReads` | src/binary-reader-ir.cc:471-489 | On all bytes: a block signature is read exactly where the signed encoding gives one of the five inline codes or a non-negative index, and an index below the number of types yields that type with the index recorded |
| `BodyReading.WrittenMeans` | src/binary-writer.cc:709-1156 | What is written for a body means, by the grammar, that body with normalised signatures |
| `ReadBack.ReadBack` | src/binary-reader.cc:683-1872 | On all bytes: what is read as a body can be written, and writing it and reading that again gives the same tree with normalised signatures |
| `ReadBack.LogPower` | src/binary-writer.cc:684-700 | The exponent written for an alignment that is a power of two is its exponent |
| `TreeRoundTrip.ReadsList` | src/binary-writer.cc:1126-1130 | Reading a list's bytes in any open context appends the list there and changes nothing else |
| `TreeRoundTrip.ReadsExpr` | src/binary-reader.cc:690-1872 | The same for one instruction |
| `TreeRoundTrip.ReadsBlock` | src/binary-reader-ir.cc:860-991 | A block or loop: its label is opened and closed and the tree nested below it |
| `TreeRoundTrip.ReadsIf` | src/binary-reader-ir.cc:942-991 | An if, with and without an else |
| `TreeRoundTrip.ReadsTry` | src/binary-reader-ir.cc:1179-1250 | A try, plain, with clauses or with a delegate |
| `TreeRoundTrip.ReadsClause` | src/binary-reader-ir.cc:1190-1217 | A clause: the label's list is redirected to the new clause |
| `TreeRoundTrip.ReadsCatches` | src/binary-reader-ir.cc:1190-1217 | All clauses in order |
| `TreeRoundTrip.DeclReads` | src/binary-writer.cc:520-535 | A block signature reads back as its normal form: void, one result, or the first type index with that signature |
| `TreeLockStep.LockStep` | src/binary-reader.cc:690-742 | On arbitrary bytes: from a state in step, the run ends with a malformed-input error or in step, never with the delegate's own label-stack errors |
| `TreeLockStep.StepKeeps` | src/binary-reader-ir.cc:415-469 | Each opcode keeps `nested_blocks` and `label_stack_` matching in kind with exactly one extra bottom label |
| `TreeLockStep.StepForward` | src/binary-reader.cc:690-742 | Every step stays inside the input |
| `BinaryReader.BinaryReader.ReadFunctionBody` | src/binary-reader.cc:683-688 | Success means the cursor is at the end and the label stack is empty; every well-formed body's bytes succeed and rebuild its tree |
| `BinaryReader.BinaryReader.ReadInstructions` | src/binary-reader.cc:690-1872 | The opcode loop computes the specified run |
| `BinaryReader.BinaryReader.ReadOp` | src/binary-reader.cc:690-1872 | One opcode does the specified step to cursor, tree and both stacks |
| `BinaryReader.BinaryReader.ReadBlock` | src/binary-reader.cc:704-736 | Block, loop, if and try: nested block pushed, then the delegate's label |
| `BinaryReader.BinaryReader.ReadIndexed` | src/binary-reader.cc:1508-1548 | Opcodes with one index, catch and delegate included |
| `BinaryReader.BinaryReader.ReadBrTableExpr` | src/binary-reader.cc:790-806 | The target loop and the default |
| `BinaryReader.BinaryReader.PushLabel` | src/binary-reader-ir.cc:415-424 | Refused beyond the nesting limit |
| `BinaryReader.BinaryReader.PopLabel` | src/binary-reader-ir.cc:426-434 | Refused when empty |
| `BinaryReader.BinaryReader.TopLabelExpr` | src/binary-reader-ir.cc:451-461 | The construct the innermost label belongs to is the last one of the list below it |
| `BinaryReader.BinaryReader.AppendExpr` | src/binary-reader-ir.cc:463-469 | Appends to the innermost label's list |
| `BinaryReader.BinaryReader.OnElseExpr` | src/binary-reader-ir.cc:942-958 | The label turns to the else arm |
| `BinaryReader.BinaryReader.OnEndExpr` | src/binary-reader-ir.cc:960-991 | The label goes |
| `BinaryReader.BinaryReader.AppendCatch` | src/binary-reader-ir.cc:1190-1217 | A new clause; a second catch_all in a row is refused |
| `BinaryReader.BinaryReader.OnDelegateExpr` | src/binary-reader-ir.cc:1227-1250 | Kind and target are set and the label goes |
| `TreeWriter.WriteExprList` | src/binary-writer.cc:1126-1130 | The written stream and relocations are those of the list's content |
| `TreeWriter.WriteExpr` | src/binary-writer.cc:709-1124 | The same for one instruction |
| `TreeRelocs.TreeRelocations` | src/binary-writer.cc:637-668 | For every tree: the relocations of its bytes are one for each call, access to a global and signature that is not inline, of the right kind, with a symbol, at the offset of that operand, in order, and no other; and it takes as many bytes as its opcodes and immediates do |
| `TreeRelocs.SitesRead` | src/binary-writer.cc:637-668 | At each of these offsets the five bytes of that index are read back |
| `TreeRelocs.SignatureBytes` | src/binary-writer.cc:520-535 | No value, i32, i64, f32, f64 are the bytes 40, 7f, 7e, 7d, 7c; every other signature is the index of its type, five bytes wide if relocated |
| `TreeCodec.FindType` | src/ir.cc:325-334 | The first type with the signature, or the number of types if there is none |
| `TreeWriter.WriteBlock` | src/binary-writer.cc:739-742 | A block-like construct with its signature and closing opcode |
| `TreeWriter.WriteCatches` | src/binary-writer.cc:1053-1061 | The clauses of a try |
| `Sections.SuccessTiles` | src/binary-reader.cc:2875-3022 | In every successful run the sections cover the bytes after the header without gap or overlap, each ends inside the file, and known sections are in order |
| `Sections.AtMostOnce` | src/binary-reader.cc:2902-2923 | Known sections come in strictly increasing order, so each at most once |
| `Sections.SeenIsOrdered` | src/binary-reader.cc:2902-2923 | The set of seen sections is redundant: the order test alone refuses every repeat |
| `Sections.SucceedsExactly` | src/binary-reader.cc:2875-3022 | From any state of the loop, a run succeeds if and only if there was no error before it, it gets to the end of the data, and every section on the way has a known code, lies in the file, and is read to its end, or is a custom section whose contents fail while such failures are tolerated |
| `SectionOrder.AcceptsExactly` | src/binary-reader.cc:2875-3022 | From the file alone: the loop accepts a file as these sections if and only if they follow one another from behind the header to its end, each stands there with its code and size and is well read, features are on where needed, the codes that are not custom are part of the list 1 2 3 4 5 13 6 7 8 9 12 10 11 in its order, and only custom sections come behind a name section |
| `SectionOrder.Visits` | src/binary-reader.cc:2926-3012 | A file whose sections come as they may, whatever is in them: they are visited in turn up to the first error that stops the reader, or all of them, and the verdict is whether all are well read, so an error that does not stop the reader is neither lost nor in the way of later sections |
| `SectionOrder.InOrderIs` | include/wabt/binary.h:39-53 | The order that the loop checks with its table is that of the list |
| `WrittenFiles.FileAccepted` | src/binary-writer.cc:1316-1650 | Every written file begins with magic and version and is cut by the section loop into the writer's sections; it is accepted if and only if each is well read, has its feature, and the codes are in order |
| `Sections.CustomMeans` | src/binary-reader.cc:2416-2456 | What becomes of a custom section with a given name: refused if the name is not valid, read as names if it is `name` and they are wanted, by its handler if it has one, skipped otherwise |
| `Sections.CustomFails` | src/binary-reader.cc:2416-2425 | A custom section without a name that fits into it is not read |
| `Sections.OrderInjective` | include/wabt/binary.h:39-53 | Two section codes with the same place in the order are equal |
| `Sections.ReadSection` | src/binary-reader.cc:2875-3022 | Every turn that goes on has moved the cursor forward, so the loop ends |
| `Sections.SectionReader.ReadSections` | src/binary-reader.cc:2875-3022 | The loop computes the specified run and ends at the end of the data |
| `Sections.SectionReader.ReadOne` | src/binary-reader.cc:2875-3022 | One section, `read_end_` restored, the cursor set back to the section end after a tolerated error |
| `Sections.SectionReader.ReadCustomSection` | src/binary-reader.cc:2416-2456 | The dispatch on the name and the backtrack |
| `ExprVisitor.Visitor.VisitExpr` | src/expr-visitor.cc:26-144 | For every tree: all four stacks end empty and the callbacks are those of the recursive traversal, all accepted; or the traversal stopped at the first callback the delegate refused. The measure is the number of pending turns |
| `ExprVisitor.Visitor.VisitExprList` | src/expr-visitor.cc:146-154 | The same for a list |
| `VisitOrder.TraceExactly` | src/expr-visitor.cc:26-154 | The callbacks for a list are the one sequence that an automaton accepts which only knows the list it is in, how far it has got, and which part of its owner that is: every expression once, in order, each list to its end before its construct's next callback |
| `VisitOrder.ClausesInPlace` | src/expr-visitor.cc:107-137 | In the callbacks for a try with clauses the one for clause i stands behind those for the body and the clauses before it, names i, and up to the next one, or the end, come exactly those for the expressions of clause i |
| `VisitOrder.OwnClausesOnly` | src/expr-visitor.cc:107-137 | None of the callbacks inside a try is about the try itself |
| `ExprVisitor.Visitor.HandleDefault` | src/expr-visitor.cc:156-432 | The first callback of an expression is made and the rest is on the stacks |
| `ExprVisitor.Visitor.PushNext` | src/expr-visitor.cc:26-144 | Moving an iterator on keeps what is to come and lessens what is pending |
| `ExprVisitor.Visitor.EndList` | src/expr-visitor.cc:26-144 | At the end of a list the right callback is made: the construct's end, the second arm, or the next clause |
| `ExprVisitor.Visitor.EndTryBody` | src/expr-visitor.cc:87-105 | After a try's body: its first clause, its delegate, or its end |
| `ExprVisitor.Visitor.NextCatch` | src/expr-visitor.cc:107-137 | The next clause or the end of the try |
| `ExprVisitor.AdvanceIs` | src/expr-visitor.cc:26-144 | Advancing an iterator and pushing its expression leaves the remaining callbacks and lowers the measure by one |
| `ExprVisitor.Begun` | src/expr-visitor.cc:156-432 | The recursive trace of a construct is its first callback and what its stack entry stands for |
| `ExprVisitor.AtEnd` | src/expr-visitor.cc:26-144 | What a stack entry still stands for when its list is done |
| `Naming.NamesAgreeWithDepths` | src/generate-names.cc:211-239 | For a function whose labels start unnamed: generating names changes nothing but labels and gives distinct ones, and after applying them every branch, br_table entry, rethrow and delegate resolves through `CWriter::FindLabel` to the label its depth meant, the function label included, and nothing else has changed |
| `Naming.GeneratedFresh` | src/generate-names.cc:117-148 | Generated names are distinct and numbered from the counter's old value to its new one |
| `NamePasses.GenIsDelegate` | src/generate-names.cc:117-229 | The generator's callbacks, made in the order of the explicit-stack traversal, give the labels of the named tree one after the other and leave the counter where the pass does |
| `NamePasses.LabelsGiven` | src/generate-names.cc:117-234 | A label that has a name keeps it; every other one gets a dollar sign, B, L, I or T for its block, loop, if or try, and its number in decimal, counted from the given one over all labels in visiting order |
| `NamePasses.ApplyIsDelegate` | src/apply-names.cc:240-396 | The applier's callbacks, made in that order on the stack of open labels, put in place the variables of the rewritten tree one after the other, a delegate's behind the pop of its try, and leave the stack as it was |
| `Naming.NumberDecimal` | src/generate-names.cc:117-139 | A number is written in decimal digits without a leading zero, and is what they stand for, so generated names differ |
| `Naming.GenScoped` | src/generate-names.cc:211-239 | Naming labels leaves every branch depth in range |
| `Naming.ApplyFinds` | src/c-writer.cc:601-624 | A depth and the name applied for it resolve to the same entry, seen from any inner label stack |
| `Naming.AppliedGoes` | src/apply-names.cc:122-150 | For every label stack, also with unnamed and repeated labels: applying names keeps where a variable goes if and only if its label has no name, or it is a name already, or no label inside has the same one; a depth beyond the labels is kept |
| `Naming.ApplySame` | src/apply-names.cc:339-396 | The same for every variable of a tree, a delegate's looked up outside its try |
| `Naming.ApplyFresh` | src/apply-names.cc:362-384 | Applying names changes no label |
| `Naming.NameGenerator.VisitFunc` | src/generate-names.cc:231-239 | The counter starts at 0 for each function |
| `Naming.NameGenerator.VisitExprList` | src/generate-names.cc:211-229 | The pass computes the specified tree and count |
| `Naming.NameGenerator.NextName` | src/generate-names.cc:141-149 | A label with a name keeps it; the count goes up either way |
| `Naming.NameApplier.FindLabelByVar` | src/apply-names.cc:122-137 | The label at a depth from the inside; empty when out of range |
| `Naming.NameApplier.UseName` | src/apply-names.cc:122-148 | A depth is replaced by the name of its label when there is one and it is not empty, and stays otherwise; a name stays; the lookup's assertion fails exactly on a name that no open label has |
| `Naming.NameApplier.VisitExpr` | src/apply-names.cc:339-396 | On every tree: the pass goes through if and only if every variable in the form of a name is that of an open label, and then rewrites as specified and leaves the label stack as it was |
| `Naming.NameApplier.VisitExprList` | src/apply-names.cc:240-258 | The same for a list |
| `Mangling.Mangle` | src/c-writer.cc:743-829 | The loop over the name computes the specified identifier |
| `Mangling.MangleDecodes` | src/c-writer.cc:743-829 | In both modes decoding undoes mangling if and only if the name has no clash (a position where the automaton has lost track of a `0x` that its output spells) |
| `Mangling.MangleInjective` | src/c-writer.cc:743-829 | Distinct names without a clash get distinct identifiers |
| `Mangling.NoFactorNoClash` | src/c-writer.cc:785-795 | A name without the factor `00x` has no clash |
| `Mangling.HarmlessKept` | src/c-writer.cc:755-829 | A name of letters, digits and single inner underscores without 0x before an upper-case hexadecimal digit is its own identifier, apart from underscores that are doubled |
| `Mangling.Collision` | src/c-writer.cc:789-791 | `0!` and `00x21` are both mangled to `00x21` |
| `Mangling.CollidesExactly` | src/c-writer.cc:743-829 | A name shares its identifier with a different name without a clash if and only if it has a clash itself and the name decoded from its identifier is mangled to that identifier again |
| `Collisions.SharedExactly` | src/c-writer.cc:743-829 | In both modes, a name shares its identifier with any other name if and only if at some byte the identifier can also be read the other way, as an escape instead of plain bytes or the reverse, and read on from there |
| `Mangling.MangledIsIdentifier` | src/c-writer.cc:743-829 | Only letters, digits and underscores, none at either end |
| `Mangling.DecodesWrong` | src/c-writer.cc:743-829 | A name with a clash is never decoded back, from any state of the automaton |
| `Mangling.ExportNameUnique` | src/c-writer.cc:692-697 | An export identifier determines its module and field on that domain, empty parts included |
| `Mangling.ExportSplits` | src/c-writer.cc:692-697 | The lone underscore is where to split, for all names |
| `Mangling.ExportHarmless` | src/c-writer.cc:692-697 | For names that need no escapes: the prefix, the module's name with doubled underscores, an underscore, the field's name |
| `Mangling.SeparatorFound` | src/c-writer.cc:763-829 | A mangled module name contains no lone underscore, and what follows cannot complete a pair |
| `InitExpr.WriteInitExpr` | src/c-writer.cc:1379-1447 | For every valid postfix constant expression: read with C precedence, where a cast binds tighter than an operator, the printed text evaluates to the stack machine's value modulo 2^32 or 2^64 |
| `InitExpr.ShowReads` | src/c-writer.cc:1379-1447 | The same for every expression tree |
| `InitExpr.CastSumReads` | src/c-writer.cc:1405-1440 | A cast in front of an unbracketed sum only casts the first operand, and that is harmless |
| `InitExpr.OperandReads` | src/c-writer.cc:1405-1440 | Every operand is read as one unit |
| `InitExpr.ValidEvaluates` | src/c-writer.cc:1379-1447 | A valid expression leaves exactly one value |
| `InitExpr.EvaluateMeans` | src/c-writer.cc:1379-1447 | Running a valid constant expression on the mini stack is running its instructions as those of a function body |
| `InitExpr.ValidIsTyped` | src/c-writer.cc:1379-1447 | A constant expression is valid if and only if it has integer constants of their width and add, sub and mul only, and its instructions are typed as code that leaves one value |

## Left out

- LoweringMain.Simulates: bodies outside `Valid` are not in its domain, because the emitted text is then not C, or an `else` governs the wrong statements, or variables of other types are read; a try without clauses and delegate is a block, as in the source.
- LoweringMain.SoundExactly: `Keeps` is asked of every block that can be reached, also where a type that was changed below it is never read again.
- LoweringSound.ListAlike: the language is C before C23, so a label with no statement behind it at the end of a brace block is refused; `LABEL:;` behind a block always has its empty statement.
- LoweringMain.Divergence: callees are an arbitrary function of arguments and memory that returns, throws or traps (`Host`), so a diverging callee, the call stack and `call_indirect` are not modelled.
- CNumbers.BinaryAgrees: covers the binary operators of both integer types; unary and conversion operators and all float arithmetic are not modelled (floats are only moved).
- CNumbers.CompareAgrees: integer comparisons only.
- LoweringInstr.SimInstr: unary, conversion and float instructions are not in `Ir`.
- Opcodes.CodeDecodes: neither are their opcodes.
- LoweringInstr.SimLoad: 32-bit addresses only; memory64, the platform's memory-check macros and Segue variants are left out.
- LoweringTry.LandCatch: a jump buffer is a cell that holds the code to resume; that C leaves non-volatile variables indeterminate after longjmp is not modelled.
- CWriter.CWriter.WriteExprList: the assertions about labels that are not open are met by the precondition that branches name open labels, which `Validation.ValidScoped` shows of every validated body.
- CWriter.CWriter.WriteFunc: emits syntax, not text: names of C variables, `_catch` suffixes, declarations, indentation, and the disambiguation of local and global symbols are left out, and label names are taken as distinct.
- TreeRoundTrip.BodyRoundTrip: label names are not part of the format, so the tree read back has none; signatures come back normalised; V128 and reference types in signatures are refused here.
- BodyReading.ReadsExactly: a block's type index beyond the types stands for a signature without values, as in the source, which leaves the refusal to validation.
- TreeLockStep.LockStep: opcodes outside the modelled set are an arbitrary function from bytes to instructions, typed select included; delegate callbacks that fail for other reasons (unknown functions, locals, CodeMetadata) do not occur.
- BinaryReader.BinaryReader.AppendExpr: where the source keeps a pointer to a list inside the tree, the model keeps a path to it; aliasing is not captured.
- BinaryWriter.Writer.WriteFixupU32Leb128Size: the guess is always one byte, as at every call site.
- BinaryWriter.Writer.WriteModule: contents of sections other than Code are given as bytes and indices; relocation, linking and name sections are not written out.
- Sections.SectionReader.ReadSections: what is inside a section is read by an arbitrary function that reports a cursor and success; `skip_function_bodies` and failing BeginSection callbacks are left out.
- ExprVisitor.Visitor.VisitExpr: expressions are values; a delegate that rewrites the tree during the traversal is not modelled.
- Naming.NameGenerator.VisitFunc: the passes are written as recursion, which `NamePasses` compares with their callbacks; trees are rebuilt, not mutated; names of functions, locals, globals and types, binding tables, disambiguators and the alphanumeric option are left out.
- Naming.NamesAgreeWithDepths: the theorem is about labels that start unnamed, as all do in a module that the binary reader builds, which ignores the label names of a name section (src/binary-reader-ir.cc:1598); `Naming.AppliedGoes` says of any labels when a branch keeps its target.
- Mangling.MangleDecodes: type suffixes and the symbol tables behind `ClaimName` are not modelled.
- InitExpr.WriteInitExpr: constants and `global.get` are atoms with a value; ref.func, ref.null and the printing of float literals are left out.
- SIMD, atomics, bulk memory, memory.size and memory.grow, tables and tail calls in the lowering: long opcode tables or foreign calls.
- The runtime library: C and WebAssembly memories and globals are the same values here; allocation, growth and bounds-check strategies of the runtime are outside.
- Text format, object dump, decompiler, spec JSON, linking, dylink and target-features sections, logging and file output.

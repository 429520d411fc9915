# Pepper, verified

Pepper is a small language: a scanner, a Pratt parser, a one-pass compiler to
bytecode whose jumps are patched afterwards, a stack machine with call frames, and
a mark-sweep collector. This project models these parts in Dafny and proves what
they promise each other.

## Main results

- **From text to result.** `SyntaxMeaning` reads the meaning of a program off its syntax
  tree: names, operators on the values of their operands, branches, loops, calls, with
  explicit budgets of stack, frames and steps. The text of any program that can be
  written, with blanks and comments between its tokens, is scanned, parsed, compiled and
  run to what its tree means (`SourceRuns.RunText`, `SourceTokens.ProgramReparses`,
  `MeaningKept.ProgramMeans`, `MeaningKept.FunctionMeans`). What the single operations give
  is said by properties of their own: copies, stores, pushes and pops (`CopyLaws`), operators
  and builtins (`OperatorLaws`), conditions (`ConditionLaws`), and which operator binds
  tighter (`PrecedenceLaws`).
- **Compilation preserves meaning.** `Core`, `Semantics` give resolved programs the same
  meaning. `Compilation.Compiler` is the
  compiler as a class over a growing byte buffer; it emits placeholders, scans for
  them, trims and replaces instructions, and is proved to leave exactly the code
  `Codegen` gives with all targets in place. `VirtualMachine.Vm` is the machine as
  a class over its arrays and takes exactly the steps of `Machine`. Whatever means
  a value runs to that value, through `if`, loops, `break`, `continue`, assignment,
  postfix operators, functions, recursion and arrays
  (`Fragment.CompiledProgramRuns`, `CompilerCorrectness.CallReturns`,
  `Interpretation.Interpret`).
- **Stack discipline and jump targets.** Compiled code has one stack height at each
  instruction, and every run keeps to it (`StackHeights`, `StackDiscipline`). Every
  jump, in dead code too, goes to an instruction of its function exactly if every
  `break` and `continue` has a loop around it (`JumpTargets`).
- **Heap.** No run of any bytecode makes an array contain itself, so copying ends
  (`Acyclicity`). A sweep keeps exactly what is marked; references in use stay
  unfreed over whole runs if and only if no step does one of two things, and for
  each of them there is a program of the fragment whose compiled code, run from the
  machine's start, does it; at most one object ever carries a stale mark. The acts
  these theorems speak of are those of the machine's own instructions on array-free
  executions (`Collection`, `Mutators`, `CollectorSafety`, `CollectedMachine`,
  `CompiledRuns`, `CollectorHazards`, `HazardPrograms`).
- **Parser, scanner and printer.** The Pratt loop accepts a token sequence for a
  tree exactly if the tree's binding powers are right and the tokens are its own
  (`PrattSoundness`, `PrattCompleteness`); printing, scanning and parsing an
  expression gives the expression (`RoundTrips`); every parse ends.
- **Supporting structures.** Instruction streams decode in one way; the bucketed
  symbol table is a chain of finite maps with one slot per name; `str_split`,
  slices and division have their laws.

## How the parts fit

`Ast` is what the parser returns. `Elaboration` resolves names to slots and
constants to indices, as the compiler does on the way, and gives a `Core` program
or the compiler's error (among them a constant or a scope too many, which the source
writes past the end of an array of 64); `Codegen` says which bytes that program has. The compiler
methods are proved against both together, so the theorems about `Core` are about what the
compiler emits. `Fragment.FragProgram` is the fragment of the correctness theorem: every
`if` branch is non-empty and ends in an expression statement, `break`, `continue`
or `return` with a value; `break` and `continue` are statements of a loop body or of
branches in it; integer literals are of 64 bits; code of the program and of each
function is below 9998 bytes, because 9998 and 9999 are the placeholders
(src/compiler.c:21-22). Outside it the compiler is still proved
to emit code of the right shape and length.

`&&` and `||` evaluate both sides; 0 is true where a jump tests it, and false (like
every number below 1) under `!`. Signed overflow and type errors are faults.

## Model

| member | source | states |
|---|---|---|
| `Opcodes.FetchEncoded` | src/opcode.c:55-75 | decoding at the offset of an encoded instruction, with any bytes before and after, gives back its opcode and its operand (big-endian, in its width) |
| `Opcodes.OpOfByte` | src/opcode.c:9-45 | every opcode is recovered from its byte in the definitions table |
| `Patching.Cut` | src/opcode.c:55-75 | what an operand too wide for its field becomes: it is cut down to the field's width; a fitting one is unchanged |
| `Patching.SweepReadsBack` | src/opcode.c:102-176 | walking by 1 + operand width over any sequence of emitted instructions visits exactly their boundaries and reads back each opcode and operand |
| `Patching.ListingEncodes` | src/opcode.c:123-176 | conversely, bytes that such a walk can read are the encoding of what it reads: the stream decodes in one way only |
| `Patching.StreamCat` | src/opcode.c:102-121 | whole-instruction streams concatenate, and so do the instructions they list |
| `Patching.PatchCat` | src/compiler.c:264-272 | the placeholder sweep over two streams is the sweep over each |
| `Patching.PatchUntilCat` | src/compiler.c:264-272 | a sweep whose end falls inside or behind a second stream patches all of the first and the rest of the sweep of the second |
| `Patching.RetargetT` | src/compiler.c:264-272 | sweeping a compiled expression for one placeholder changes its outer `break`/`continue` targets and nothing else: inner loops keep theirs, no jump with a real target is mistaken (code below 9998 bytes) |
| `Patching.RetargetB` | src/compiler.c:264-272 | the same for blocks |
| `Patching.BodyPatched` | src/compiler.c:538-558 | the sweep over a loop body re-targets exactly that body's jumps even when its end is one byte past the body because the final POP has been trimmed |
| `CodeBuffer.Buffer.constructor` | src/compiler.c:30-36 | an empty buffer of the given capacity |
| `CodeBuffer.Buffer.Emit` | src/compiler.c:141-166 | appends the encoding, keeps all earlier bytes, returns the old size, keeps size within capacity (doubling when needed) |
| `CodeBuffer.Buffer.Grow` | src/compiler.c:144-149 | doubling keeps the contents |
| `CodeBuffer.Buffer.ChangeOperand` | src/compiler.c:134-139 | overwrites the operand of one instruction, all other bytes unchanged |
| `CodeBuffer.Buffer.ChangePlaceholders` | src/compiler.c:264-272 | the byte loop computes the sweep PatchUntil over the region from `start` |
| `CodeBuffer.Buffer.Truncate` | src/compiler.c:105-109 | drops the bytes from a position on |
| `CodeBuffer.Buffer.Replace` | src/compiler.c:111-117 | overwrites one instruction in place |
| `Compilation.Compiler.constructor` | src/compiler.c:27-49 | one scope with an empty buffer, no constants, and the builtins as symbols |
| `Compilation.Compiler.Emit` | src/compiler.c:141-166 | appends to the current scope's code and records the last instruction; other scopes untouched |
| `Compilation.Compiler.RemoveLastInstruction` | src/compiler.c:105-109 | takes away the last instruction; the one recorded before it becomes the last |
| `Compilation.Compiler.ReplaceLastInstruction` | src/compiler.c:119-124 | overwrites the last instruction, which becomes the previous one of the record |
| `Compilation.Compiler.AddConstant` | src/compiler.c:89-93 | appends to the constants, of which there is room for 64, and returns the index |
| `Compilation.Compiler.EnterScope` | src/compiler.c:705-715 | a new empty buffer and an enclosed symbol table; outer scopes untouched; there is room for 64 |
| `Compilation.Compiler.LeaveScope` | src/compiler.c:718-725 | returns the inner code and restores scope and symbols |
| `Compilation.Compiler.CompileProgram` | src/compiler.c:176-189 | for any syntax tree: the compile error of name resolution or of a full array, or exactly the code CodeP of the resolved program with at most 64 constants, all targets in place, provided the code stays below 9998 bytes (its length is right in any case) |
| `Compilation.Compiler.CompileBlock` | src/compiler.c:191-200 | appends the block's code and constants, updates the symbols; the last instruction recorded is a POP exactly when the last statement is an expression |
| `Compilation.Compiler.CompileStatement` | src/compiler.c:202-262 | appends code and constants of one statement |
| `Compilation.Compiler.CompileLet` | src/compiler.c:219-235 | the name is defined first, so its value may refer to it (recursion through globals); null if there is no value |
| `Compilation.Compiler.CompileInfix` | src/compiler.c:274-340 | left operand, right operand, operator; both sides always evaluated |
| `Compilation.Compiler.CompilePrefix` | src/compiler.c:351-369 | operand, then BANG or MINUS |
| `Compilation.Compiler.CompilePostfix` | src/compiler.c:371-404 | the old value stays on the stack below the load, the 1 and the operator whose result is stored |
| `Compilation.Compiler.CompileIf` | src/compiler.c:406-441 | both branches as values (trailing POP trimmed), both jumps bound: to the alternative and past it |
| `Compilation.Compiler.CompileThen` | src/compiler.c:406-424 | condition and consequence, with the jump past the consequence already bound |
| `Compilation.Compiler.CompileIdent` | src/compiler.c:463-484 | loads the slot that resolution gives, or the error for an unknown name |
| `Compilation.Compiler.CompileConstant` | src/compiler.c:443-461 | the constant is added and loaded |
| `Compilation.Compiler.CompileFunction` | src/compiler.c:486-508 | compiles the body in its own scope and adds it as a constant with its number of locals |
| `Compilation.Compiler.CompileFunctionBody` | src/compiler.c:486-508 | the finished code of a function (final POP turned into RETURN_VALUE, RETURN added where no value is left), outer scope as before |
| `Compilation.Compiler.CompileCall` | src/compiler.c:510-522 | callee, arguments in order, CALL with their number |
| `Compilation.Compiler.CompileWhile` | src/compiler.c:524-559 | condition, body and back jump, with `break` and `continue` of this loop bound and those of outer loops left alone |
| `Compilation.Compiler.CompileFor` | src/compiler.c:561-609 | the same with initialisation, optional test and increment; `continue` goes to the increment |
| `Compilation.Compiler.BindLoopJumps` | src/compiler.c:549-558 | the two sweeps over a loop body bind its own placeholders, once everything else is in place |
| `Compilation.Compiler.CompileArray` | src/compiler.c:611-617 | the elements in order, then ARRAY |
| `Compilation.Compiler.CompileSlice` | src/compiler.c:619-639 | left operand, bounds (null if absent), SLICE |
| `Compilation.Compiler.CompileIndex` | src/compiler.c:641-648 | left operand, index, INDEX_GET |
| `Compilation.Compiler.CompileAssign` | src/compiler.c:650-684 | value, store, load: an assignment is an expression |
| `Compilation.Compiler.CompileAssignIndex` | src/compiler.c:668-684 | array, index, value, INDEX_SET |
| `Codegen.BlockIsValueThenPop` | src/compiler.c:202-218 | a block's code is its code as a value followed by the POP that the value form trims |
| `Emission.ScanDid` | src/compiler.c:538-558 | what one sweep over an emitted loop body leaves, as code and as last instruction |
| `Emission.BindPastLimit` | src/compiler.c:264-272 | beyond the placeholder values the sweep still keeps every instruction boundary and length |
| `Emission.OperandAt` | src/compiler.c:134-139 | an operand bound after more code was emitted is the operand that the finished code has there |
| `Fragment.CompiledIsCode` | src/compiler.c:176-693 | what the compiler leaves for a program of the fragment meets every hypothesis of the correctness theorem (constants in place, operands in width) |
| `Fragment.CompiledProgramRuns` | src/vm.c:449-785 | compile, then run: HALT is reached on an empty stack with the same globals and arrays and the value of a final expression popped last, and the machine cannot stop in any other way; literals are of 64 bits, and constants and scopes fit their arrays |
| `Machine.Step` | src/vm.c:537-785 | one instruction of the machine keeps stack, frame and global sizes |
| `Machine.Call` | src/vm.c:349-374 | a call's new frame, from callee and arguments on the stack, or its error |
| `Machine.Return` | src/vm.c:593-608 | a return puts the value in the callee's place and resumes after the CALL |
| `Correctness.SimT` | src/compiler.c:342-693 | an expression whose meaning is a value runs to the end of its code with that value pushed; one that breaks, continues or returns jumps there with the stack as its loop or caller needs it |
| `Correctness.SimTs` | src/compiler.c:510-522 | operands are evaluated from the left, each above the one before |
| `Correctness.SimC` | src/compiler.c:202-262 | a statement runs to the end of its code with the stack as it was |
| `Correctness.SimB` | src/compiler.c:191-200 | the same for a block |
| `Correctness.SimV` | src/compiler.c:406-435 | a block as a value leaves the value of its final expression |
| `Correctness.SimCond` | src/compiler.c:406-441 | the branch that the condition selects is the one that runs |
| `Correctness.SimLoop` | src/compiler.c:524-609 | all rounds of a loop, with the value of the last one left on the stack, through `break`, `continue` and `return` |
| `Correctness.SimApply` | src/vm.c:328-374 | a call of a function or builtin gives the source-level result |
| `Correctness.SimBump` | src/compiler.c:371-404 | a postfix operator gives the old value and stores the new one |
| `Correctness.CalleeCode` | src/compiler.c:486-508 | the compiled form of a function is its body as a value, then RETURN_VALUE, RETURN or nothing according to how the body ends, each at the offset where the machine finds it |
| `CompilerCorrectness.ProgramRuns` | src/vm.c:537-785 | a resolved program that ends normally runs to HALT with the same globals and heap and the last value popped |
| `CompilerCorrectness.StopsOnce` | src/vm.c:537-785 | the machine stops in one state at most |
| `CompilerCorrectness.ProgramStopsOnlySo` | src/vm.c:537-785 | however the machine stops on such a program, it is at HALT with the program's result |
| `CompilerCorrectness.ProgramLeads` | src/vm.c:75-103 | no instruction of the run to HALT reads a slot that the program did not write |
| `Leftovers.BothStep` | src/vm.c:537-785 | an instruction that reads no unwritten slot does the same on stacks that agree on the written ones |
| `Leftovers.OneCount` | src/vm.c:75-103 | a program with a meaning takes one and the same number of instructions to HALT, whatever the stack held at the start |
| `Leftovers.CountIsUnique` | src/vm.c:449-538 | there is no other such number |
| `CompilerCorrectness.CallReturns` | src/vm.c:349-374 | from CALL to the instruction after it: callee and arguments are replaced by exactly the result, the frames and all slots below are untouched, wherever in its body (also inside loops) the function returned |
| `Budgets.MoreT` | src/vm.h:7-9 | more stack, frames or steps never change an answer of the semantics |
| `Budgets.OneAnswer` | src/vm.h:7-9 | two runs of a block with different budgets that both have an answer agree |
| `Naturality.PrimNatural` | src/vm.c:129-325 | operators do not look inside functions: they commute with compiling the functions among their operands |
| `Naturality.BuiltinNatural` | src/builtins.c:66-249 | nor do builtins |
| `VirtualMachine.Vm.constructor` | src/vm.c:75-103 | one frame on the main code, null globals, the constants given, an empty heap, anything on the stack |
| `VirtualMachine.Vm.Run` | src/vm.c:449-785 | the dispatch loop takes exactly the steps of Machine.Step, and ends at HALT or at the fault of that machine |
| `VirtualMachine.Vm.StepOnce` | src/vm.c:449-538 | one dispatch is one machine step on the array state |
| `VirtualMachine.Vm.Execute` | src/vm.c:537-785 | every handler changes the state exactly as the instruction's meaning says |
| `VirtualMachine.Vm.Binary` | src/vm.c:129-311 | operands popped, result written over the left one in place |
| `VirtualMachine.Vm.NotValue` | src/vm.c:313-319 | BANG in place |
| `VirtualMachine.Vm.NegateValue` | src/vm.c:321-325 | MINUS in place |
| `VirtualMachine.Vm.BuildArrayValue` | src/vm.c:377-383 | a new list of deep copies of the top n values |
| `VirtualMachine.Vm.CopyValue` | src/object.c:111-145 | the copying loop computes the deep copy |
| `VirtualMachine.Vm.CopyValues` | src/object.c:215-223 | element by element, in order |
| `VirtualMachine.Slice` | src/vm.c:385-423 | the copying loop gives the slice of the specification |
| `VirtualMachine.Vm.GetElement` | src/vm.c:707-759 | INDEX_GET on arrays and strings, with its errors |
| `VirtualMachine.Vm.SetElement` | src/vm.c:761-780 | INDEX_SET stores a deep copy and leaves the value |
| `VirtualMachine.Vm.CallFunction` | src/vm.c:349-356 | pushes the frame; the arguments become its first locals |
| `VirtualMachine.Vm.CallBuiltinFunction` | src/vm.c:328-346 | callee and arguments are replaced by the builtin's result |
| `VirtualMachine.Vm.ReturnWith` | src/vm.c:593-608 | pops the frame and puts the value in the callee's slot |
| `VirtualMachine.Vm.JumpNotTrue` | src/vm.c:568-577 | jumps on null and false only, so 0 is true |
| `VirtualMachine.Vm.PopElement` | src/builtins.c:133-149 | array_pop |
| `VirtualMachine.Vm.PushElement` | src/builtins.c:151-165 | array_push, also of an array into itself |
| `VirtualMachine.SplitString` | src/builtins.c:194-231 | the strstr loop gives the pieces of the specification |
| `VirtualMachine.Vm.LastPopped` | src/vm.c:787-789 | the value just above the stack pointer |
| `Interpretation.RunProgram` | src/pepper.c:128-140 | compile and run: the compile error, or an ending which, for a program of the fragment whose meaning is a normal end, is never a fault; it is HALT if and only if the limit exceeds the number of instructions to HALT, one number for every initial stack, and then has that meaning's globals and last value |
| `Interpretation.Interpret` | src/pepper.c:113-149 | the same from the text of the program, through scanner and parser |
| `StackHeights.FunctionBalanced` | src/compiler.c:486-508 | a compiled function has one stack height per instruction that agrees along fall-through and jumps, with enough operands everywhere, 0 at its start, and no end other than a return |
| `StackHeights.ProgramBalanced` | src/compiler.c:176-262 | the same for a main program, which ends in HALT |
| `StackHeights.SpanT` | src/compiler.c:342-693 | an expression raises the height by one over code that is balanced throughout |
| `StackHeights.SpanB` | src/compiler.c:202-262 | a block leaves the height as it was |
| `StackHeights.SpanLoop` | src/compiler.c:524-559 | so do loops, with one value kept below the body |
| `StackHeights.JumpsLand` | src/compiler.c:264-272 | in code with a height at each reachable instruction, jumps among these go to instructions with a height, and none of them to a placeholder |
| `JumpTargets.BoundaryNext` | src/compiler.c:264-272 | a walk over the code by whole instructions goes on from each boundary by the instruction there and comes to no byte within it |
| `JumpTargets.AimT` | src/compiler.c:342-693 | over the code of an expression every jump goes to an instruction boundary, or leaves for the enclosing loop; one leaves exactly if the expression has a `break` or `continue` outside its own loops |
| `JumpTargets.ProgramJumpsLand` | src/compiler.c:264-272 | in a compiled program below 9998 bytes every jump at every instruction boundary, on a path that can run or not, goes to an instruction boundary of the program and has no placeholder for its target, if and only if every `break` and `continue` has a loop around it; without one it is left as its placeholder |
| `JumpTargets.FunctionJumpsLand` | src/compiler.c:486-508 | the same of a function's code |
| `JumpTargets.CompiledJumpsLand` | src/compiler.c:549-558 | the same of all that the compiler leaves: the program's code and every function constant |
| `JumpTargets.FragmentJumpsLand` | src/compiler.c:549-558 | so all jumps of a program of the fragment and of its functions land |
| `StackDiscipline.StepSteady` | src/vm.c:537-785 | each step keeps sp = base + locals + height in every frame |
| `StackDiscipline.RunsAreDisciplined` | src/vm.c:548-622 | on every run of a program of the fragment that holds, and no step underflows or leaves the code |
| `StackDiscipline.CompiledRunsAreDisciplined` | src/vm.c:449-785 | so it does for all runs of what the compiler produces from a syntax tree |
| `Acyclicity.NoCycle` | src/object.c:111-145 | on a ranked heap no path of elements comes back to where it started |
| `Acyclicity.CopyEnds` | src/object.c:111-145 | copy_object ends on every value of an acyclic heap and keeps it acyclic |
| `Acyclicity.IndexSetGood` | src/vm.c:761-780 | storing into an array, also into itself, makes no cycle |
| `Acyclicity.PushGood` | src/builtins.c:151-165 | nor does array_push |
| `Acyclicity.PopGood` | src/builtins.c:133-149 | nor array_pop |
| `Acyclicity.StepSound` | src/vm.c:537-785 | no instruction of any bytecode makes a cycle |
| `Acyclicity.RunsStayAcyclic` | src/vm.c:376-402 | on every run of any bytecode the heap stays acyclic and every value in reach can be copied |
| `Acyclicity.StartsAcyclic` | src/vm.c:75-103 | the machine starts so |
| `Collection.Heap.Mark` | src/gc.c:16-33 | marks a string, function or array; errors and scalars are not marked |
| `Collection.Heap.MarkUntilNull` | src/gc.c:92-94 | marks the globals up to the first null |
| `Collection.Heap.Sweep` | src/gc.c:35-67 | keeps exactly the marked objects and the errors, as a multiset despite the swap-remove, frees every other object once, clears every kept mark |
| `Collection.Heap.Collect` | src/gc.c:69-102 | roots are the stack below sp, the constants and the globals up to a null |
| `Collection.Heap.Add` | src/gc.c:6-14 | lists a heap object; collects first if and only if the list is four fifths full, and doubles the list when it is full all the same |
| `Collection.KeptOrDropped` | src/gc.c:35-67 | every listed object is kept or dropped, never both |
| `Mutators.StepSane` | src/vm.c:537-785 | every instruction, with or without a collection, keeps the heap list free of repetition and apart from what is freed, and keeps addresses unique |
| `CollectorSafety.FreedIffDropped` | src/gc.c:35-67 | at any time of a run the freed objects are exactly those that some earlier collection of the run dropped: listed, markable, not marked from before and no root |
| `CollectorSafety.NewSafeIff` | src/gc.c:69-102 | an allocation keeps all references valid if and only if its collection drops no object of a global behind the first null |
| `CollectorSafety.StepSafeIff` | src/vm.c:349-356 | one step of a run keeps all references valid if and only if it neither exposes, as a local, a slot whose object an earlier collection dropped, nor drops a global behind a null; both can be told before the step |
| `CollectorSafety.RunSafeIff` | src/gc.c:69-102 | over whole runs, whenever collections happen: references are valid at all times if and only if no step does one of those two things |
| `CollectorSafety.CarefulRunsAreSafe` | src/gc.c:85-96 | two rules on the state before each step are enough: exposed slots hold no reference, and no null precedes an assigned global at a collection |
| `CollectedMachine.AfterSeen` | src/vm.c:537-785 | each instruction of the machine, on values without arrays, does to references what its act says |
| `CollectedMachine.ExecutionSeen` | src/vm.c:449-785 | along every array-free execution that keeps the stack discipline the collector sees exactly the machine's values, whatever it collects when |
| `CollectedMachine.HasCollector` | src/gc.c:6-14 | beside every such execution there is a run of the collector, with collections exactly when due |
| `CollectedMachine.VmStarts` | src/vm.c:75-103 | the machine's start state, as the collector sees it, is safe and has nothing freed and no stale mark |
| `CollectedMachine.ExecutionSafeIff` | src/vm.c:449-785 | on every such execution all values in use refer to unfreed objects at all times if and only if no step does one of the two things |
| `CompiledRuns.CompiledExecutionSafeIff` | src/gc.c:69-102 | the same for every array-free execution of what the compiler makes of a program of the fragment |
| `CollectorHazards.InStep` | src/vm.c:449-785 | instructions taken by the machine and its collector in step are an execution with a collector's run beside it that collects whenever the list is four fifths full |
| `HazardPrograms.HoleCompiled` | src/compiler.c:176-693 | `let a; let s = "..."; let b = s + s; while (true) { s + s; }` compiles, for any text and any free names, and is in the fragment |
| `HazardPrograms.HoleRun` | src/gc.c:85-96 | the execution of what the compiler leaves for it, from the machine's start, comes to a collection after which the global `b` refers to a freed string, because the global `a` before it is null |
| `HazardPrograms.StaleCompiled` | src/compiler.c:176-693 | `let s = "..."; let f = fn() { while (false) { let p; let q; } }; print(1, s + s); while (true) { s + s; f(); }` compiles and is in the fragment |
| `HazardPrograms.StaleRun` | src/vm.c:349-356 | its execution comes to a call of `f` that makes a local slot of what `print` left on the stack: a string that the collection before freed |
| `CompiledRuns.CompiledRunsStayAcyclic` | src/vm.c:376-402 | no program that compiles makes a cycle of arrays, in the fragment or not |
| `CollectorSafety.FloatingGarbageStaysOne` | src/gc.c:6-14 | at every time of every run, at most one listed object carries a stale mark |
| `CollectorSafety.FreedByNext` | src/gc.c:85-96 | what one collection of a run kept, stale mark or not, any later collection of the run frees if it is no root then |
| `SymbolTables.HashMap.Get` | src/symbol_table.c:53-64 | lookup in 26 chained buckets is lookup in a finite map |
| `SymbolTables.HashMap.Insert` | src/symbol_table.c:27-50 | insertion is map update |
| `SymbolTables.SymbolTable.Define` | src/symbol_table.c:99-119 | the table's view changes as Scopes.Define says: a known name keeps its symbol, a new one takes the next slot |
| `SymbolTables.SymbolTable.DefineBuiltin` | src/symbol_table.c:121-132 | a builtin takes no slot |
| `SymbolTables.SymbolTable.Resolve` | src/symbol_table.c:134-145 | resolves as Scopes.Resolve does, through the chain of scopes |
| `SymbolTables.DefineKeepsSlots` | src/symbol_table.c:99-119 | names and slots below the size stay in one-to-one correspondence, redefinition changes nothing, a defined name resolves to its symbol |
| `SymbolTables.SlotsAreOneToOne` | src/symbol_table.c:99-119 | so after any sequence of definitions |
| `SymbolTables.BuiltinsTakeNoSlot` | src/symbol_table.c:121-132 | builtins leave size and correspondence as they are |
| `SymbolTables.InnermostWins` | src/symbol_table.c:134-145 | through scopes nested to any depth, what is found is the definition the least number of levels out, and nothing is found only if no level has one |
| `Lexing.Lexer.GetToken` | src/lexer.c:54-302 | the token after blanks and comments, its text and extent; its line is one more than the line breaks before it and its position its column, and both stay right unless a string holds a line break |
| `Lexing.Lexer.Scan` | src/lexer.c:77-302 | one token, without the blanks before it |
| `Lexing.Lexer.Skip` | src/lexer.c:54-75 | white space and comments, lines and columns counted |
| `Lexing.Lexer.ReadString` | src/lexer.c:247-258 | stops at the first quote that no backslash precedes |
| `Lexing.Lexer.ReadWord` | src/lexer.c:261-293 | names and numbers of at most 63 characters, one character pushed back |
| `Lexing.AllTokens` | src/lexer.c:54-302 | over all calls to the end of the input: if every string is on one line, every token has the right line and column |
| `Lexing.OnlyStringsBreak` | src/lexer.c:54-302 | no token but a string can hold a line break |
| `Lexing.ParseStringLiteral` | src/parser.c:213-255 | the escape loop stops exactly at the closing quote and gives the unescaped text, no longer than what it read |
| `Lexing.UnescapeStep` | src/parser.c:213-255 | an escape sequence cannot take in the closing quote |
| `Parsing.ParseExpression` | src/parser.c:676-772 | total on every token sequence, never going back and never past the end |
| `ParserMethods.Parser.ParseExpression` | src/parser.c:676-772 | the loop reads the tree of Parsing.ParseExpression and ends |
| `ParserMethods.Parser.ParsePrimary` | src/parser.c:676-726 | the switch on the first token |
| `ParserMethods.Parser.ParseSuffix` | src/parser.c:729-768 | one operator, call or index |
| `ParserMethods.Parser.ParseList` | src/parser.c:277-318 | argument and element lists |
| `ParserMethods.Parser.ParseIndex` | src/parser.c:349-383 | index or slice |
| `ParserMethods.Parser.ParseSlice` | src/parser.c:327-347 | slice bounds, both optional |
| `ParserMethods.Parser.ParseIf` | src/parser.c:566-610 | with `else` and `else if` |
| `ParserMethods.Parser.ParseWhile` | src/parser.c:543-564 | condition and body |
| `ParserMethods.Parser.ParseFor` | src/parser.c:494-541 | every clause may be absent |
| `ParserMethods.Parser.ParseFunction` | src/parser.c:658-674 | parameters and body |
| `ParserMethods.Parser.ParseParams` | src/parser.c:612-656 | a parameter list |
| `ParserMethods.Parser.ParseBlock` | src/parser.c:472-492 | statements up to the closing brace, also when one fails |
| `ParserMethods.Parser.ParseStatement` | src/parser.c:793-810 | the kind of statement by its first token |
| `ParserMethods.Parser.ParseLet` | src/parser.c:161-193 | name and optional value |
| `ParserMethods.Parser.SkipForward` | src/parser.c:129-134 | to the next semicolon or the end |
| `ParserMethods.Parser.ParseProgram` | src/parser.c:821-863 | on every token sequence the parser comes to the end of the tokens, with the program or with a failure |
| `PrattSoundness.PrattIsSound` | src/parser.c:676-772 | whatever parse_expression(prec) reads is exactly its tree's tokens; every left operand binds at least as tightly as its operator and every right one more tightly; the next token binds no tighter than prec |
| `PrattSoundness.BoundExpression` | src/parser.c:676-772 | the part of that about binding powers, for trees with statements inside too |
| `PrattSoundness.YieldExpression` | src/parser.c:676-772 | the part of it about tokens |
| `PrattCompleteness.Rebuilt` | src/parser.c:676-772 | conversely, the tokens of a tree with those binding powers are parsed into that very tree, and the loop goes on from it |
| `PrattCompleteness.Closed` | src/parser.c:676-772 | in front of a token that binds no tighter, the parse ends with the tree |
| `PrattCompleteness.ParsesExactly` | src/parser.c:676-772 | a token sequence parses into a tree if and only if the tree has those binding powers and the tokens are its own: the grammar is unambiguous |
| `Printing.Printer.ExpressionToStr` | src/parser.c:910-1032 | appends the fully bracketed text of the expression |
| `Printing.Printer.ListToStr` | src/parser.c:1002-1024 | elements with commas between them |
| `RoundTrips.Scanned` | src/lexer.c:54-302 | repeated scanning gives the token sequence of the specification |
| `RoundTrips.TextLexes` | src/lexer.c:54-302 | the printed text of any tree scans to the tokens of that tree in brackets |
| `RoundTrips.GroupedIsSame` | src/parser.c:435-448 | brackets leave no trace in the expression |
| `RoundTrips.GroupedIsLevelled` | src/parser.c:910-1032 | the printer's brackets are enough for every operator |
| `RoundTrips.PrintedTextReparses` | src/parser.c:910-1032 | print, scan, parse: for every expression of names, numbers, truth values, operators, calls, arrays and indices the parser returns that expression, having read all tokens |
| `RoundTrips.Reread` | src/parser.c:910-1032 | the same as a program: printer, scanner and parser one after the other |
| `ValueLaws.FindIsFirst` | src/builtins.c:216-216 | the search finds the first occurrence, or there is none |
| `ValueLaws.SplitIsLeftmost` | src/builtins.c:194-231 | the pieces are the only list whose join with the delimiter is the subject and whose delimiters are each the leftmost |
| `ValueLaws.NoPieceHoldsDelimiter` | src/builtins.c:194-231 | no piece contains the delimiter |
| `ValueLaws.SliceIsBetween` | src/vm.c:385-447 | a slice is the part of the source between its normalised bounds; it reads outside exactly if the start is before the first element and the end after the start |
| `ValueLaws.SlicesPartition` | src/vm.c:385-447 | [:k] and [k:] join to the source, for positive and negative k |
| `ValueLaws.ElementIsSlice` | src/vm.c:707-759 | an indexed character is the slice of length one at that index |
| `ValueLaws.DivisionTruncates` | src/vm.c:129-163 | quotient and remainder of C: the remainder has the dividend's sign and is smaller than the divisor |
| `ValueLaws.DivisionIsUnique` | src/vm.c:129-163 | no other pair of numbers has those properties |
| `ValueLaws.DivisionFits` | src/vm.c:129-163 | the only overflow of division and remainder is that of the smallest integer by -1 |
| `CopyLaws.CopyIsAlike` | src/object.c:111-145 | a deep copy is what the original was, to every depth: equal scalars, arrays of the same length with like elements in the same order, each array of the copy a new one |
| `CopyLaws.CopyListIsAlike` | src/object.c:215-223 | a list is copied element by element, in order |
| `CopyLaws.ArrayHoldsCopies` | src/vm.c:376-383 | a new array has an element alike each operand, in their order, and is new itself |
| `CopyLaws.StoreLaw` | src/vm.c:761-785 | outside the array an indexed store is an error value and changes nothing; inside it the one element becomes alike the value, and all other elements and arrays stay |
| `CopyLaws.PushLaw` | src/builtins.c:151-165 | the list is the old one followed by one element alike the value, and the result is its new length |
| `CopyLaws.PopLaw` | src/builtins.c:133-149 | the list is the old one without its last element, and the result is alike that element; null for an empty list |
| `CopyLaws.CopiesAreAlike` | src/object.c:111-145 | on a heap without cycles every value has a copy, alike to every depth |
| `CopyLaws.ArraysAreBuilt` | src/vm.c:376-383 | on such a heap every array literal has a value that holds copies of its elements |
| `CopyLaws.StoresHappen` | src/vm.c:761-785 | on such a heap every indexed store within the array is done and leaves an element alike the value |
| `CopyLaws.PushesHappen` | src/builtins.c:151-165 | on such a heap every push is done |
| `CopyLaws.PopsHappen` | src/builtins.c:133-149 | on such a heap every pop of a list with elements is done |
| `ConditionLaws.JumpOnFalse` | src/vm.c:568-577 | the conditional jump takes one value off and jumps on null and on false only: 0, the empty string and the empty array go on |
| `ConditionLaws.BranchTaken` | src/compiler.c:406-441 | an `if` is its consequence for every test value other than null and false |
| `ConditionLaws.LoopEndsByTest` | src/compiler.c:524-559 | a loop ends by its test on null and false only, with the value of the rounds before |
| `ConditionLaws.NoTestGoesOn` | src/compiler.c:561-609 | a `for` without a test never ends by it |
| `OperatorLaws.HeapIsKept` | src/vm.c:129-325 | an operator on two operands neither reads nor changes an array |
| `OperatorLaws.SumLaw` | src/vm.c:129-163 | the sum is the number from which taking the right operand leaves the left one; none outside 64 bits |
| `OperatorLaws.DifferenceLaw` | src/vm.c:129-163 | the difference is the number to which adding the right operand gives the left one |
| `OperatorLaws.ProductLaw` | src/vm.c:129-163 | the product is one operand added up as often as the other says |
| `OperatorLaws.QuotientLaw` | src/vm.c:129-163 | quotient and remainder by the equation that fixes them, through the instruction; an error value for division by zero |
| `OperatorLaws.OrderLaw` | src/vm.c:218-251 | less is when the right operand is ahead by a positive number; the other five comparisons follow from it |
| `OperatorLaws.LogicOnIntegers` | src/vm.c:129-163 | `&&` and `\|\|` take no integers |
| `OperatorLaws.NegationLaw` | src/vm.c:321-327 | unary minus gives the number that makes zero with its operand |
| `OperatorLaws.BangLaw` | src/vm.c:313-319 | `!` is true of null, false and every integer below one |
| `OperatorLaws.ConcatenationLaw` | src/vm.c:165-179 | the left text in front, the right one behind it, and no more |
| `OperatorLaws.StringLaw` | src/vm.c:270-286 | strings are equal when they have the same characters |
| `OperatorLaws.NotOnStrings` | src/vm.c:165-179 | no other operator takes strings |
| `OperatorLaws.LogicLaw` | src/vm.c:181-194 | the truth tables of `&&` and `\|\|` |
| `OperatorLaws.SameTruth` | src/vm.c:253-268 | equality of truth values |
| `OperatorLaws.NotOnTruth` | src/vm.c:181-194 | no other operator takes truth values |
| `OperatorLaws.MixedLaw` | src/vm.c:196-215 | operands of two types have no result |
| `OperatorLaws.ElementLaw` | src/vm.c:707-759 | an indexed element is the one at that place, from the end if negative; an error value outside the array |
| `OperatorLaws.CharacterLaw` | src/vm.c:707-759 | the same for the characters of a string |
| `OperatorLaws.StringParts` | src/vm.c:404-447 | `x[:k]` and `x[k:]` join to the string x, by the instruction's operands |
| `OperatorLaws.ArrayParts` | src/vm.c:385-447 | the same for arrays: the elements of the two slices, in order, are those of x |
| `OperatorLaws.StringBetween` | src/vm.c:404-447 | `x[i:j]` is what stands from place i to before place j |
| `OperatorLaws.ArrayBetween` | src/vm.c:385-447 | the same for arrays |
| `OperatorLaws.LenLaw` | src/builtins.c:66-86 | `len` counts characters and elements |
| `OperatorLaws.PrintLaw` | src/builtins.c:88-97 | `print` gives null |
| `OperatorLaws.IntLaw` | src/builtins.c:106-131 | `int` keeps integers, and takes true for one and false for zero |
| `OperatorLaws.ContainsLaw` | src/builtins.c:233-249 | `str_contains` is true exactly if the second text is somewhere in the first |
| `OperatorLaws.SplitLaw` | src/builtins.c:194-231 | `str_split` gives a new array of the leftmost pieces, which join to the text |
| `OperatorLaws.TypeLaw` | src/builtins.c:99-104 | `type` tells any two types apart, and nothing else |
| `OperatorLaws.ArgumentLaw` | src/builtins.c:66-249 | a wrong number or type of arguments gives an error value |
| `PrecedenceLaws.TwoOperators` | src/parser.c:33-73 | of two operators between three operands the right one binds first exactly if it is later in the order `\|\|`, `&&`, equality, comparison, sum, product: written out as a list, not by the parser's table |
| `PrecedenceLaws.PrefixTakesOne` | src/parser.c:269-276 | `-a + b` is `(-a) + b`, for every operator |
| `PrecedenceLaws.PrefixAfter` | src/parser.c:269-276 | `a + -b` is `a + (-b)` |
| `PrecedenceLaws.PrefixOfCall` | src/parser.c:386-392 | `-f(x)` is `-(f(x))` |
| `PrecedenceLaws.PrefixOfIndex` | src/parser.c:350-384 | `-x[i]` is `-(x[i])` |
| `PrecedenceLaws.AssignmentTakesAll` | src/parser.c:394-407 | `x = a + b` assigns the whole of `a + b` |
| `PrecedenceLaws.PostfixFirst` | src/parser.c:409-416 | `x++ + b` is `(x++) + b` |
| `SourceTokens.PrimaryOf` | src/parser.c:676-772 | the tokens of any primary, functions, loops and `if` among them, are read as that primary |
| `SourceTokens.ExpressionOf` | src/parser.c:676-772 | the tokens of any expression are read as that expression |
| `SourceTokens.StatementOf` | src/parser.c:794-810 | the tokens of any statement are read as that statement |
| `SourceTokens.BlockOf` | src/parser.c:473-493 | the tokens of a block are read as its statements in order |
| `SourceTokens.IfOf` | src/parser.c:567-610 | `if`, condition, consequence, `else`, alternative: each in its place |
| `SourceTokens.ElseIfOf` | src/parser.c:587-600 | `else if` is a block with that one statement |
| `SourceTokens.WhileOf` | src/parser.c:544-565 | condition and body, each in its place |
| `SourceTokens.ForOf` | src/parser.c:495-542 | the three clauses, each of which may be absent, and the body |
| `SourceTokens.FunctionOf` | src/parser.c:659-674 | the parameters in order, and the body |
| `SourceTokens.EscapedReads` | src/parser.c:213-256 | reading a literal's escapes gives back the string that was escaped |
| `SourceTokens.UnescapedIsWritable` | src/parser.c:213-256 | conversely, every string that a literal stands for is one of those whose escaped form reads back |
| `SourceTokens.ProgramReparses` | src/parser.c:821-863 | the tokens of any program, written from its tree, are parsed into that tree, with all tokens read |
| `SourceTexts.KeywordIs` | src/lexer.c:7-36 | each keyword is scanned as its own token |
| `SourceTexts.SymbolIs` | src/lexer.c:85-241 | each sign is scanned as its own token, whatever follows |
| `SourceTexts.TokenScans` | src/lexer.c:54-302 | a token with a blank behind it is scanned as that token |
| `SourceTexts.TextScans` | src/lexer.c:54-302 | any blanks and comments between the tokens of a text leave its tokens as they are |
| `SourceTexts.SourceReparses` | src/parser.c:821-863 | the text of any program that can be written, with blanks and comments anywhere, is scanned and parsed into its tree |
| `SourceTexts.NumbersAndStrings` | src/lexer.c:243-302 | which numbers and strings can be written |
| `MeaningKept.InfixMeans` | src/compiler.c:274-340 | the instruction that an operator of the tree becomes does what the operator means |
| `MeaningKept.PrefixMeans` | src/compiler.c:351-369 | the same for `!` and unary minus |
| `MeaningKept.PostfixMeans` | src/compiler.c:371-404 | the same for `++` and `--` |
| `MeaningKept.MeansE` | src/compiler.c:342-693 | an expression with its names, constants and operators resolved means what its tree means: values, stores, order of evaluation and budgets |
| `MeaningKept.MeansEs` | src/compiler.c:510-522 | arguments and elements mean their trees' values, from the left |
| `MeaningKept.MeansIf` | src/compiler.c:406-441 | the consequence unless the test is null or false, the alternative then, null without one |
| `MeaningKept.MeansLoop` | src/compiler.c:524-609 | test, body, increment and again; `continue` goes to the increment, `break` ends with null |
| `MeaningKept.MeansS` | src/compiler.c:202-262 | a statement |
| `MeaningKept.MeansB` | src/compiler.c:191-200 | a block has the value of its last statement that does anything |
| `MeaningKept.FunctionMeans` | src/compiler.c:486-508 | a call runs the body of the function's text over its own locals, and gives what that ends or returns with |
| `MeaningKept.ParametersInOrder` | src/compiler.c:486-508 | the parameters take the slots of the arguments in their order if and only if no name is given twice |
| `MeaningKept.ParameterMeans` | src/compiler.c:486-508 | the i-th parameter means the i-th argument, and has no value without one |
| `MeaningKept.LetMeans` | src/compiler.c:219-235 | behind a `let` its name means the value, and names with other slots mean what they meant |
| `MeaningKept.BuiltinMeans` | src/builtins.c:24-64 | each builtin's name means that builtin |
| `MeaningKept.ProgramMeans` | src/compiler.c:176-693 | what the compiler makes of a program of the fragment runs to HALT with the globals, the arrays and the last value that the syntax tree means, and stops in no other way |
| `SourceRuns.RunText` | src/pepper.c:113-149 | the text of any program that can be written is scanned, parsed, compiled and run to what its tree means |

## Left out

- Reading files, `print` output, `file_get_contents`, `int` of a string, debug dumps, the interactive loop and the texts of error messages: input and output only; `print` is modelled by its value.
- Memory layout, allocation failure, variadic functions and computed dispatch: dispatch is a match on the opcode, allocation succeeds.
- What the source does after a constant or a scope too many: it writes past an array (src/compiler.c:89-93, 705-715), which has no defined result; here it is a compile error.
- Empty `if` branches and branches that end in `let`: nothing is pushed for them (src/compiler.c:416-435), so they are outside the fragment of the correctness and stack theorems; that the compiler emits their code as `Codegen` says is still proved.
- Bare `return;` emits nothing (src/compiler.c:237-241), and `return` outside a function pops the main frame: modelled as the compiler does it, outside the fragment or the slot condition.
- References of a function to an enclosing function's locals: resolution gives a plain local index, there are no closures; `StackHeights.SlotsT` excludes indices beyond the function's own slots.
- `let` or assignment on a builtin's name: assignment ends the compiler at once in the source (exit(1)) and is a compile error in the model; a `let` on such a name is compiled as a store to a local slot, as in the source, outside the slot condition.
- Unary minus on a value that is not an integer: the source negates whatever the bytes are; a fault in the model.
- The compiler holds its scopes as a value of `Scopes.Symbols`; the bucketed table is proved against the same functions, for names that start with a to z, on which its hash is defined.
- The linked bucket nodes of the symbol table are a list per bucket.
- Interpretation.RunProgram: has an instruction limit, since the machine need not halt.
- Interpretation.Interpret: a text with a parse failure that the source does not report ends as not parsed. An operand that is a lone semicolon is such a failure, as in `(;`: the source parses no expression there, reports nothing, and goes on with the rest of the program (src/parser.c:435-448, 711-713).
- VirtualMachine.Vm.Run: returns after a given number of instructions, for the same reason.
- CollectedMachine.ExecutionSafeIff: executions that make an array are left out, because elements of arrays are not marked (src/gc.c:16-33).
- The machine class `Vm` itself does not collect; `Collection.Heap` is the collector on its own, and `CollectedMachine` puts runs of the two side by side. The test build collects at every allocation; the theorems on acts allow collections anywhere.
- Parsing.ParseExpression: a failure is one result whatever the message, reported or not; where the source goes on with a missing operand, the model's parse fails. After a reported error the source rejects the program too.
- PrattSoundness.PrattIsSound: the tokens of functions, loops and `if` inside an expression are not part of the yield of a tree; `SourceTokens` has them, in one direction.
- SourceTokens.ProgramReparses: operands are written in brackets; which brackets can be left out is what `PrattCompleteness` and `PrecedenceLaws` say.
- SourceTokens.EscapedReads: a string with a backslash in front of `n` or `t`, and one that ends in a backslash, cannot be written: there is no escape for a backslash (src/parser.c:213-256).
- RoundTrips.PrintedTextReparses: strings, postfix operators, assignment, `if`, loops, functions and slices are printed in forms that do not read back.
- A number literal is an unbounded natural number in the syntax tree; beyond 64 bits the source's computation overflows, and the literal is outside the fragment.
- Unterminated strings: `Lexing.Lexer.GetToken` gives the token up to the end of the input; nothing more is promised of the tokens after it. A lone `|` or `&` keeps the type of the token read before, as in the source.
- An empty delimiter in `str_split` (the source does not end) and the text of type errors: no result in the model.
- Slice starts before the first element with an end after the start: the source reads outside the array; the model has no result (`ValueLaws.SliceIsBetween` says exactly when).
- The printing of opcode listings and the size tables of src/sizes.c: presentation only.

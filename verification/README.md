# A verified model of the LMX compiler back end and virtual machine

LMX compiles a small imperative language (numbers, truth values, variables, blocks, `if`, `loop`,
`break`, `continue`, functions) to three-address instructions for a register machine. A program is
run directly, line by line in an interactive loop, or from a `.lmc` file. This project models the
code generator, the emitter, the machine, the byte encoding, the file format and the interactive
loop, and proves what they guarantee together.

| file | contents |
|---|---|
| `Words.dfy` | 64-bit words, their low byte, C++ division, operators |
| `Machine.dfy` | instructions and the step relation of the machine |
| `Source.dfy` | syntax trees and a reference interpreter (with fuel for calls and loop rounds) |
| `Reference.dfy` | the code a program should get, compositional: destinations and targets are parameters; with moves folded and without |
| `Safety.dfy` | conditions, computed from the program text, under which the code is right |
| `Passing.dfy` | what an evaluation passes as arguments on the way |
| `Simulation.dfy` | the reference code, folded or not, simulates the interpreter |
| `Closed.dfy` | jump targets stay inside the statement; calls enter functions at their start |
| `Programs.dfy` | whole programs and the compiler correctness theorem |
| `Diverging.dfy` | programs that do not end do not end on the machine either |
| `Patching.dfy` | pending breaks and continues; backpatching gives the intended code |
| `Emit.dfy` | the allocator and the emitter as classes; folding of moves |
| `Folding.dfy` | programs compiled with and without folding mean the same |
| `Relocation.dfy` | the unfolded program, address by address, from the folded one |
| `Emission.dfy` | what the generator does to its output, as functions, for every program |
| `Generation.dfy` | the generator as a function of its whole state, for every tree, errors included; without errors it is `Emission.dfy` |
| `Generator.dfy` | the code generator as a class, proved to compute that function |
| `Footprint.dfy` | what compiling any tree can do to earlier instructions, and where new ones can lead |
| `Faithful.dfy` | where no jump of an outer loop is pending at a loop, the output is the reference code |
| `Unclean.dfy` | everywhere else it is not: the two together are an equivalence |
| `Inside.dfy` | generated code is closed, wherever loops stand |
| `Naming.dfy` | which programs are accepted: scopes, arities and immutability, read off the tree |
| `Compiler.dfy` | whole programs: accepted when free of errors, right exactly when clean |
| `VM.dfy` | the machine as a class with an in-place dispatch loop, proved to compute the step relation |
| `Operations.dfy` | arithmetic, comparing, logical, call and return instructions in plain numbers |
| `CallReturn.dfy` | calls and returns match in every run of every program |
| `Reachable.dfy` | stack balance and control safety of every reachable state of every error-free program |
| `Bytes.dfy` | operand layout, little-endian numbers, decoding |
| `Binary.dfy` | writing and loading `.lmc` files |
| `Layout.dfy` | every instruction, the header and one whole file, byte by byte |
| `Deploy.dfy` | compiled programs fit the encoding; source to file to run |
| `Repl.dfy` | the interactive loop, with accepted and with refused lines |
| `Leaks.dfy` | which lines of the loop give their registers back |
| `Registers.dfy` | how many registers an expression needs and which it spares |
| `Slots.dfy` | slots of variables are distinct and never reused |
| `Counting.dfy` | how often a counted loop goes round on the machine |
| `Arguments.dfy` | what a function finds in its parameters |
| `Limits.dfy` | registers, reassignment, the closing FRET, global variables: where compiled code departs from the source, with exact conditions |
| `Globals.dfy` | functions that read global variables, called from the top level |
| `Examples.dfy` | programs on which these limits bite, compiled and run |
| `Mishaps.dfy` | more of them: global variables reassigned in functions, a register that is not saved |
| `Fibonacci.dfy` | the theorem applied to a recursive program |
| `Grammar.dfy` | the expression grammar on tokens, a printer with the fewest parentheses, and the round trip |
| `Parser.dfy` | the recursive-descent expression parser as a class, proved to compute that grammar |
| `Precedence.dfy` | what the grammar makes of explicit token lists: levels, associativity, dots, arguments, annotations |

Three layers carry the main result. The interpreter in `Source.dfy` says what a program means. The
reference code in `Reference.dfy` has no mutable state: an expression is compiled *into* a register,
a statement is compiled with its jump targets given. The class `Generator` follows the C++ code: it
takes registers from a lowest-free set, rewrites the destination of the last instruction instead of
emitting a move, emits jumps with target 0 and overwrites the targets later, keeps pending breaks and
continues in two flat lists, and counts slots in frames it pushes and pops. It is proved to compute one
function of its whole state for every tree (`Generation.dfy`), and to report an error exactly when the
program breaks a rule of its language (`Naming.dfy`). Its output without errors is characterised exactly, for programs good and bad
(`Emission.dfy`), and shown to be the reference code if and only if no loop is reached while a
jump of an outer loop is pending (`Faithful.dfy`, `Unclean.dfy`). The reference code is proved to
simulate the interpreter on the machine, recursion included (`Simulation.dfy`, `Programs.dfy`).

A register or a local is a 64-bit word, modelled by its signed reading; the truth value in it is its
low byte, the only byte that comparisons, `&&` and `||` write. Where C++ leaves a result undefined
(overflow, division by zero, an index out of range) the machine is `Stuck`, so every theorem that
says a run reaches a state also says that nothing undefined happened on the way.

The generator folds a move into the instruction before it. The same code without any folding is
defined beside it, an address map between the two is given, and both are proved to run to the same
variables (`Folding.dfy`, `Relocation.dfy`).

## Findings

Each comes with its exact condition. Where a run is named, it is a theorem about the machine on the
instructions the generator leaves for that program, for any numbers in it (`Examples.dfy`, `Mishaps.dfy`).

- Reassigning a variable inside a function stores to slot 0, whichever variable is meant
  (`compiler/generator/generator.cpp:310`): `cur[fst]` counts frames from the bottom, `find_var` from
  the top. The store reaches the variable exactly if it has slot 0 and is the function's own, or global
  with the function called from the top level (`Limits.StoresHomeIff`, `Limits.FunctionStores`). The
  assignment also leaves a variable of that name behind in the other frame, which does not exist, so
  later reads reach the variable exactly if it is the function's own (`Limits.ReadsHomeIff`,
  `Limits.PhantomLocal`, `Limits.PhantomGlobal`), and `x = e  return x` gives back e exactly if x is the
  function's own and has slot 0 (`Limits.GivesBackIff`). Runs: `Examples.WrongParameter`,
  `Mishaps.LostGlobal`, `Mishaps.StrayStore`.
- Both lists of pending jumps are flat: a loop that follows a pending `break` or `continue` of an
  outer loop directs it to itself (`compiler/generator/generator.cpp:133-139`). The code is the intended
  one exactly for the programs without such a loop. `Unclean.CleanIff`, `Driver.GeneratedIff`; run:
  `Examples.WrongLoop`.
- A call in a second or later argument passes its own arguments in the registers in which the earlier
  ones wait (`compiler/generator/generator.cpp:414-421`), and so do the calls made by the functions it
  calls. A parameter is its argument exactly if nothing is passed in its place later, or the same
  number again. `Arguments.OverwrittenIff`, `Arguments.LaterArguments`; runs: `Examples.LostArgument`,
  `Examples.LostDeeper`.
- A function reads a global variable through frame depth 1 of the machine's stack, which is the frame of
  its caller (`runtime/vm.cpp:190-199`): for a function that does not assign to the variable, right exactly
  for calls from the top level. `Limits.ReadsGlobalIff`, `Globals.ReturnsSeen`; run:
  `Examples.ForeignSlot`.
- Of all registers exactly 1, 2 and 3 survive every call (`runtime/vm.cpp:115-125`).
  `Limits.SurvivesIff`; run: `Mishaps.LostOperand`.
- A function whose text ends in `return`, if only in its last `else`, gets no closing FRET
  (`compiler/generator/emit.cpp:99`). If it does not return, the machine runs on into what follows it.
  `Limits.ClosingRetIff`, `Limits.RunsOnIff`; run: `Examples.RunsOn`.
- The variable that does not exist, left behind by an assignment in a function, is in scope for the rest of
  the program: a name that was never declared may be read, and a later parameter of that name is an error.
  A program is accepted exactly if it keeps the rules with these names counted, and where no function
  assigns to a name in scope these are the plain rules. `Naming.AcceptedIff`, `Naming.QuietAcceptedIff`;
  programs: `Naming.GhostAccepted`, `Naming.GhostRefused`.
- The number of parameters of a function is kept in a byte (`compiler/generator/generator.hpp:151`), and calls
  are held against that: a function with 256 parameters can be called without arguments only.
  `Naming.ArityByte`.
- Folding a move into a comparison changes the seven upper bytes of the word it leaves
  (`compiler/generator/emit.cpp:37-44`, `runtime/vm.cpp:141-170`), which is harmless since nothing typed
  looks at them. `Folding.FoldWords`; run: `Examples.WordsDiffer`.
- Running a source file appends a second HALT before the `.lmc` file is written
  (`tools/lm/common/file_run.cpp:43` after `compiler/generator/generator.cpp:99`); the loader stops at
  the first, so the pool it hands to the machine begins with the opcode byte of the second and every
  offset is off by one. `Binary.SecondHalt`, `Deploy.CompiledFile`.
- A file that ends within its version number passes the check of the header if the bytes that are there
  are right, because the rest of the buffer is zero; the loader then never stops.
  `Binary.BinaryLoader.Load`; file: `Binary.ShortFile`.
- After a line with an error the interactive loop leaves that line's code and its HALT in the program
  (`tools/lm/common/repl.cpp:38` skips line 48), and the machine never gets past that HALT: of a later
  line no instruction is ever executed exactly if some line before it had an error (`Repl.SilentIff`).
  The machine need not even reach the HALT: it may loop in what is left of the refused line
  (`Repl.RefusedLine`; lines: `Repl.RefusedName`, `Repl.RefusedLoop`).
- Of two expressions in a block only the register of the last is released
  (`compiler/generator/generator.cpp:485-492`), so in the interactive loop every line `{ 1 2 }` takes one
  register for good (`Leaks.BlockLeaks`). Lines that are single expressions, or in which no statement is an
  expression, take none (`Leaks.LinesHeld`).
- A counted loop goes round `n mod 256` times, since only the low byte of the counter is tested.
  `Counting.LoopCount`, `Counting.NoRounds`.
- In the expression grammar `||` binds tighter than `&&`, a minus takes the whole expression behind it,
  and so does the right operand of a comparison (`compiler/parser.cpp:118-149`, `461-464`).
  `Precedence.OrBeforeAnd`, `Grammar.MinusReaches`, `Precedence.ComparedOnTheRight`.
- A type annotation ends the expression: of `a : t + b` the parser returns `a`
  (`compiler/parser.cpp:319-344`). `Precedence.Annotated`.

## Model

| member | source | states |
|---|---|---|
| Programs.CompilerCorrect | compiler/generator/generator.cpp:93-518 | If the interpreter runs a safe program to its end, the machine run on the compiled program reaches its final HALT with no call pending, and every variable in scope has its source value in its slot |
| Diverging.HaltsIff | runtime/vm.cpp:129-131 | For a safe program that never goes wrong in the interpreter: the machine reaches HALT iff some fuel lets the interpreter finish, and otherwise runs for ever |
| Diverging.LongProgram | compiler/generator/generator.cpp:93-518 | Where the interpreter runs out of a given fuel, the machine takes at least that many steps |
| Simulation.SimExpr | compiler/generator/generator.cpp:234-334 | Code of an expression, run in any machine state that matches the environment, reaches the end of the code with the value in its destination, both stacks unchanged and every live register kept |
| Simulation.SimArgs | compiler/generator/generator.cpp:414-421 | Argument code leaves the i-th value in register 254 - i, keeping earlier arguments and live registers |
| Simulation.SimCall | compiler/generator/generator.cpp:369-413 | A call that returns in the interpreter returns on the machine, with the value in its destination and the caller's live registers and frames as before |
| Simulation.SimFn | runtime/vm.cpp:109-128 | From FCALL to the matching FRET: value in register 0, resumption at call + 1, saved registers and stacks restored, by induction over the interpreter's calls |
| Simulation.SimStmt | compiler/generator/generator.cpp:67-91 | Code of a statement ends where the interpreter's outcome says (end, break target, continue target or return) with matching variables and kept registers |
| Simulation.SimList | compiler/generator/generator.cpp:485-492 | The same for a statement list, stopping early on break, continue and return |
| Simulation.SimScoped | compiler/generator/generator.cpp:477-484 | A block forgets what it declared while outer variables keep the values it gave them |
| Simulation.SimIf | compiler/generator/generator.cpp:494-518 | Both branches rejoin with the interpreter's outcome |
| Simulation.SimLoop | compiler/generator/generator.cpp:111-142 | Every round of a loop, counted or not, with break, continue and return; the low byte of the counter register is the number of rounds left |
| Simulation.SimSet | compiler/generator/generator.cpp:303-320 | Declaration and reassignment leave the variables matching the new environment |
| Simulation.SimReturn | compiler/generator/generator.cpp:336-343 | A return puts the value in register 0 and leaves the frame |
| Codegen.Generator.GenExpr | compiler/generator/generator.cpp:67-91 | For every tree the new state and result register are those of Generation.ExprGen; an error iff the expression has one, otherwise the reference code appended and exactly the result register held more |
| Codegen.Generator.GenBinary | compiler/generator/generator.cpp:234-294 | Operands parked by moves that fold into the instruction before, registers released; equals the reference code |
| Codegen.Generator.GenNeg | compiler/generator/generator.cpp:436-457 | Subtraction from a zero in a register that is free again before the result is taken |
| Codegen.Generator.GenCall | compiler/generator/generator.cpp:372-413 | Error iff the function is unknown, the argument count differs or an argument has an error; else arguments, then FCALL |
| Codegen.Generator.GenArgs | compiler/generator/generator.cpp:414-421 | Each argument's result is moved to its argument register and its own register released |
| Codegen.Generator.GenVarRef | compiler/generator/generator.cpp:321-334 | Error iff the name is not found; the register taken in between is given back |
| Codegen.Generator.GenAssign | compiler/generator/generator.cpp:303-320 | Immutable and redeclared names are errors; LOCAL_SET gets the slot found through `cur[fst]` |
| Codegen.Generator.GenReturn | compiler/generator/generator.cpp:336-343 | The result moved to register 0 by folding, then FRET |
| Codegen.Generator.GenBlock | compiler/generator/generator.cpp:477-492 | Names restored, slot counter kept |
| Codegen.Generator.PatchAll | compiler/generator/generator.cpp:133-136 | Exactly the recorded addresses change, each to a jump to the given target |
| Emit.Allocator.Alloc | compiler/generator/generator.cpp:27-35 | The lowest free register, taken; 255 and no change when all are taken |
| Emit.Allocator.Free | compiler/generator/generator.cpp:42-46 | Releases any register but 0 |
| Emit.Emitter.EmitMovRR | compiler/generator/emit.cpp:33-49 | Nothing, a rewritten destination, or a MOV_RR |
| Emit.Emitter.EmitFRet | compiler/generator/emit.cpp:98-103 | No second FRET in a row |
| Emit.FoldExpr | compiler/generator/emit.cpp:37-44 | Expressions other than calls end in an instruction whose first operand is their destination, and changing that operand is compiling them into the other destination |
| Emit.MoveFolds | compiler/generator/emit.cpp:33-49 | The move after any expression just compiled, folded or appended, gives the code with the new destination |
| Folding.FoldingRefines | compiler/generator/emit.cpp:33-49 | A safe program whose interpretation ends, compiled with folding and compiled with every move appended: both machines reach HALT, with every variable holding the same source value in the same slot |
| Folding.StmtsCorrespond | compiler/generator/generator.cpp:67-154 | From any two states that match the same environment, the folded and the unfolded code of a statement end the same way, at corresponding addresses, with the same values and live registers |
| Folding.FoldWords | compiler/generator/emit.cpp:37-44 | One fold against the instruction and its move: the same registers but the old destination; the words in the new one are equal iff a whole word is written or the upper bytes of the two destinations agreed |
| Relocation.ProgramUnfolds | compiler/generator/emit.cpp:33-49 | For every program: each address of the folded code has its place in the unfolded one, where the same instruction stands with its target moved along, or the instruction it was folded from and the move; no target lies between those two |
| Relocation.StmtUnfolds | compiler/generator/generator.cpp:111-154 | The same for a statement at any address, its breaks and continues included |
| Examples.WordsDiffer | runtime/vm.cpp:141-170 | `r = 1 < x`, for every x above 1: the variable ends as 1 with folding and as x - x mod 256 + 1 without, 513 for 512; equal iff x is a byte |
| Patching.Backpatch | compiler/generator/generator.cpp:111-154 | Code with dummy targets, patched at the recorded addresses, is the code compiled with the targets |
| Patching.PendsMeans | compiler/generator/generator.cpp:143-154 | The pending lists of a statement are empty iff no break or continue of an outer loop occurs in it |
| Patching.PendingSpan | compiler/generator/generator.cpp:133-136 | Recorded addresses lie inside the statement |
| Closed.StmtClosed | compiler/generator/generator.cpp:111-154 | Every jump of a statement stays between its first instruction and the one after it or goes where the enclosing loop says; every call enters a function at its first instruction; FRET only in functions |
| CallReturn.CallReturns | runtime/vm.cpp:109-128 | For every program and every run from an FCALL to its return: resumes at call + 1, both stacks as before, registers 1 to 3 as before |
| VM.VirtualCore.Run | runtime/vm.cpp:32-223 | The dispatch loop over mutable registers, frames and return stack computes the step relation |
| VM.VirtualCore.Dispatch | runtime/vm.cpp:37-219 | One instruction, in place, is one step |
| Operations.AddStep | runtime/vm.cpp:79-83 | ADD leaves the sum of the two words and changes nothing else if the sum is a signed 64-bit number; otherwise the machine is stuck |
| Operations.SubStep | runtime/vm.cpp:84-88 | SUB: the difference, in the same way |
| Operations.MulStep | runtime/vm.cpp:89-93 | MUL: the product, in the same way |
| Operations.DivStep | runtime/vm.cpp:94-98 | DIV leaves the only q for which x = y q + m with a remainder smaller than y and of the sign of x; stuck for y = 0 and overflow |
| Operations.ModStep | runtime/vm.cpp:99-103 | MOD leaves that m |
| Operations.OneQuotient | runtime/vm.cpp:94-103 | There is only one such q and m |
| Operations.CompareStep | runtime/vm.cpp:141-169 | Each of the six comparisons leaves as low byte 1 or 0 as the relation holds between the two words, the rest of the destination unchanged |
| Operations.LogicStep | runtime/vm.cpp:200-211 | AND and OR leave as low byte whether both, or one, of the low bytes are not zero |
| Operations.CallStep | runtime/vm.cpp:109-120 | FCALL adds one frame with argument i from register 254 - i, one more local that is zero, and registers 1 to 3 noted |
| Operations.ReturnStep | runtime/vm.cpp:121-128 | FRET takes the frame and the address away and puts back registers 1 to 3 only, whatever the function did |
| Operations.SourceOperators | runtime/vm.cpp:89-170 | What the interpreter takes a product, a division by zero and each comparison to be: the same |
| Operations.ProductRuns | compiler/generator/generator.cpp:234-294 | `r = x * y >= z` for all numbers whose product fits: accepted, and run to HALT r is the truth value of x * y >= z |
| Operations.NegativeRuns | compiler/generator/generator.cpp:436-457 | `r = -x`: run to HALT r is -x for every number but the smallest, for which the run is undefined |
| Operations.TruthRuns | compiler/generator/generator.cpp:469-475 | `r = true` and `r = false`: run to HALT r is 1 and 0 |
| VM.VirtualCore.Call | runtime/vm.cpp:109-120 | Pushes the return address and a frame of argument count + 1 locals taken from registers 254 down |
| VM.VirtualCore.Ret | runtime/vm.cpp:121-128 | Pops both stacks and restores registers 1 to 3 |
| VM.VirtualCore.Skip | runtime/vm.cpp:181-185 | Goes just past the next FUNC_END |
| VM.RunForReaches | runtime/vm.cpp:129-131 | A HALT is reached iff some budget lets the loop stop there |
| Machine.SkipToEnd | runtime/vm.cpp:181-185 | The first FUNC_END, if there is one |
| Words.SetLowByte | runtime/vm.cpp:141-170 | Writing `.b` sets the low byte and keeps the seven others |
| Words.TruncDiv | runtime/vm.cpp:94-98 | Division truncates toward zero |
| Bytes.DecodeEncode | include/opcode.hpp:77-86 | For every instruction whose operands fit their fields, the machine reads back exactly what the emitter wrote |
| Bytes.DecodeAlike | include/opcode.hpp:35-75 | No operand byte at or past the length of the opcode is read |
| Bytes.FetchEncode | compiler/generator/emit.cpp:26-49 | An encoded program is fetched as the structured one |
| Bytes.AlikeRuns | include/opcode.hpp:35-75 | Programs equal on the bytes below their opcode lengths have equal runs |
| Bytes.OperandBytes | compiler/generator/emit.cpp:86-91 | The emitter writes no byte at or past the opcode length, so files lose nothing |
| Bytes.ValueLittle | compiler/generator/emit.cpp:13-20 | Little-endian write, then read, is the identity |
| Bytes.LittleValue | compiler/generator/emit.cpp:13-20 | Little-endian read, then write, is the identity |
| Binary.BinaryWriter.WriteFile | compiler/generator/generator.cpp:520-537 | Header, each instruction with as many operand bytes as its opcode has, pool; a HALT is appended if missing |
| Layout.OpLayout | compiler/generator/emit.cpp:22-160 | The bytes of every instruction as a literal list: opcode, operands, and for arithmetic a byte that is not used |
| Layout.AllLengths | include/opcode.hpp:37-75 | The number of operand bytes of all 35 opcodes, as a table |
| Layout.HeaderBytes | compiler/generator/generator.cpp:520-523 | The eight bytes of the header |
| Layout.ClosingHalt | compiler/generator/generator.cpp:60-65 | Header, instructions, pool, and a HALT between them exactly if the last instruction is none |
| Layout.WholeFile | tools/lm/common/file_run.cpp:37-44 | The file of `r = x + y` from its first byte to its last, for all x and y of one byte and every pool |
| Binary.BinaryLoader.Load | runtime/loader.cpp:34-51 | Instructions through the first HALT with zeroed operand tails, the rest as data; refuses a bad header; never stops iff the header passes and no complete HALT follows |
| Binary.BinaryLoader.CheckHead | runtime/loader.cpp:26-32 | Accepts exactly the files whose first eight bytes, completed by zeros, are the magic number and version 1 |
| Binary.FileRoundTrip | runtime/loader.cpp:34-51 | Loading a written file yields the instructions through the first HALT, tails zeroed, and the remaining instructions in front of the pool as data |
| Binary.FileIdentity | compiler/generator/generator.cpp:520-537 | The round trip is the identity iff nothing follows the first HALT and no unused operand byte is set |
| Binary.SecondHalt | tools/lm/common/file_run.cpp:43-44 | With a second HALT the loaded data is the pool behind one extra byte |
| Binary.ShortFile | runtime/loader.cpp:26-32 | The file of the magic number and a single 1 passes the header check, and the loader finds no HALT in it |
| Binary.EncodedCanonical | compiler/generator/emit.cpp:13-49 | Emitted instructions have no unused operand byte set |
| Deploy.CompiledFile | tools/lm/common/file_run.cpp:43-44 | The file written for a safe program, second HALT included, loads as that program, with one extra byte in front of the pool |
| Deploy.FileRunsRight | tools/lm/common/file_run.cpp:13-44 | Running the loaded file of a safe program ends with every variable holding its source value |
| Deploy.BinaryRun | tools/lm/common/file_run.cpp:13-20 | Loading, decoding and running a file is the run of the program in it |
| Repl.Session.constructor | tools/lm/common/repl.cpp:14-16 | The session starts with a fresh generator and the machine in its start state |
| Repl.Session.ReadLine | tools/lm/common/repl.cpp:20-49 | Any line, accepted or refused: compiled, run unless it has an error, register released, HALT removed, as the function Repl.Line says |
| Repl.Session.ReadLines | tools/lm/common/repl.cpp:20-50 | The same for any sequence of lines |
| Leaks.LineHeld | tools/lm/common/repl.cpp:46 | After an accepted line that is an expression, or in which no statement is one, the same registers are held as before |
| Leaks.LinesHeld | tools/lm/common/repl.cpp:35-48 | The same after any number of such lines, so a session never runs out of registers through them |
| Leaks.StmtHeld | compiler/generator/generator.cpp:111-142 | A statement without expressions as statements gives back every register it takes, also where there are too few |
| Leaks.BlockLeaks | compiler/generator/generator.cpp:485-492 | After a line `{ m n }` one register more is held |
| Repl.RefusedMeans | tools/lm/common/repl.cpp:37-38 | A line is refused iff its item has an error in the scope the lines before it left |
| Repl.RefusedLine | tools/lm/common/repl.cpp:37-38 | A line with an error moves nothing on the machine and leaves the code before it, some of its own without HALT and closed, and a HALT; the code before it is unchanged unless its last instruction could be taken for a result in register 0 or 255 |
| Repl.SilentIff | tools/lm/common/repl.cpp:38 | After any sequence of lines: no instruction of an accepted line is ever executed iff some line before it had an error |
| Repl.OneRun | tools/lm/common/repl.cpp:35-48 | After any sequence of lines without errors the machine is in the state in which one run of all their code would halt |
| Repl.RefusedName | tools/lm/common/repl.cpp:37-38 | The line `y`, y unknown, leaves HALT, at which every later run ends at once |
| Repl.RefusedLoop | tools/lm/common/repl.cpp:37-38 | The line `loop { y }` leaves a jump to itself and a HALT: no later run ends at all |
| Repl.RunGrows | tools/lm/common/repl.cpp:41-48 | A run that halts at the end of a program is a run of every longer program |
| Repl.LineRuns | tools/lm/common/repl.cpp:41-48 | Resuming on the longer program continues the one long run |
| Repl.StaleHalt | tools/lm/common/repl.cpp:38 | A run that gets to a HALT left inside ends there whatever code follows, and so does every later run |
| Registers.HeightFits | compiler/generator/generator.cpp:234-301 | A call-free expression of height k needs no register index above the number held + k + 1 |
| Registers.ExprSpares | compiler/generator/generator.cpp:234-334 | Its code writes no held register but its destination |
| Registers.OneMoreHeld | compiler/generator/generator.cpp:22-46 | Exactly one more register is held afterwards |
| Slots.SlotsFresh | compiler/generator/generator.hpp:106-150 | Visible names have distinct slots, and a new name's slot was never handed out before |
| Slots.BlockFresh | compiler/generator/generator.cpp:477-484 | A block restores names but not the slot counter |
| Limits.SurvivesIff | runtime/frame/frame.hpp:10-16 | A register survives every call of every program iff it is 1, 2 or 3 |
| Limits.ReassignInFunction | compiler/generator/generator.cpp:306-310 | With the frames a function is compiled with, every permitted reassignment goes to slot 0: of frame depth 0 for the function's own variables, of depth 1 for global ones |
| Limits.StoresHomeIff | compiler/generator/generator.cpp:306-310 | In all machine states with n frames the store writes the variable's own word iff it has slot 0 and is the function's own, or global with the function called from the top level |
| Limits.ReadsHomeIff | compiler/generator/generator.cpp:321-334 | After the assignment a reference reads the variable's own word, in all such states, iff the variable is the function's own |
| Limits.GivesBackIff | compiler/generator/generator.cpp:303-343 | Compiled, `x = e return x` gives back the word of e from all such states iff x is the function's own and has slot 0 |
| Limits.PhantomLocal | compiler/generator/generator.cpp:310 | Reassigning a global variable leaves an immutable variable of the function of its name, read from slot 0 of the function's own frame |
| Limits.StmtTidy | compiler/generator/generator.cpp:303-320 | Every statement of a function keeps the frames so (a name in both is a phantom in one), and all its reassignments go to slot 0 |
| Limits.FunctionStores | compiler/generator/generator.cpp:345-367 | So do all reassignments of every function the generator accepts, whatever stands before it; the global frame gains nothing but phantoms |
| Limits.PhantomGlobal | compiler/generator/generator.cpp:310 | Reassigning a variable of the function leaves an immutable global variable of its name, read from slot 0 |
| Examples.WrongParameter | compiler/generator/generator.cpp:303-320 | func p(a, b) { b = z return a } with r = p(x, y), for all numbers: accepted, meant to give x, and run to HALT gives z |
| Mishaps.LostGlobal | compiler/generator/generator.cpp:303-334 | mut v = x, func f(a) { v = z return v }, r = f(y), for all numbers: accepted, v becomes z, and run to HALT r is y |
| Mishaps.StrayStore | compiler/generator/generator.cpp:303-320 | mut v = x, func f() { v = z }, func g(a) { f() return a }, r = g(y): accepted, and run to HALT v is still x and r is z |
| Mishaps.LostOperand | runtime/vm.cpp:109-128 | 1 1 1, func f() { v = z return 0 }, r = x + f(): accepted, meant to give x, and run to HALT gives z, because x waits in register 4 |
| Limits.ClosingRetIff | compiler/generator/emit.cpp:98-103 | The closing FRET is missing iff the body's text ends in a return |
| Limits.RunsOnIff | compiler/generator/generator.cpp:361-365 | A call whose body ends without returning: at the end of the body the machine returns iff the body's text does not end in a return; otherwise it passes FUNC_END with the frame and the return address still there |
| Examples.RunsOn | compiler/generator/emit.cpp:98-103 | func f(c) { if (c) { } else { return 1 } } and f(x), x true: the run never ends, and reaches states with any number of frames |
| Counting.LoopCount | compiler/generator/generator.cpp:111-142 | Any run of a counted loop to its end, from any state, the count a call or not: with a body without calls, returns and breaks of this loop it passes the DEC as often as the counter word mod 256, continue included; as often as the counter iff that is a byte |
| Counting.NoRounds | runtime/vm.cpp:176-180 | At 256 the statement takes two steps and the body none |
| Fibonacci.FibSafe | compiler/generator/generator.cpp:336-421 | The recursive Fibonacci program meets all conditions of the theorem |
| Fibonacci.FibRuns | runtime/vm.cpp:109-128 | Compiled and run, it leaves fib(k) in the variable's slot, for every k whose result is a 64-bit number |
| Codegen.Generator.GenStmt | compiler/generator/generator.cpp:67-91 | For every tree, with errors or out of registers too, the new state and result are those of Generation.StmtGen; frames as specified, an error iff the statement has one; without errors, and if every loop gets a register for its counter, the output is the one Emission gives, wherever loops stand |
| Codegen.Generator.GenIf | compiler/generator/generator.cpp:494-518 | The same for an `if`, whose three targets are filled in after the fact |
| Codegen.Generator.GenLoop | compiler/generator/generator.cpp:111-142 | The same for a loop: every recorded jump is patched, whichever loop it belongs to, and both lists are empty afterwards |
| Codegen.Generator.OpenFunction | compiler/generator/generator.cpp:345-359 | Error iff a parameter shadows a global, or the function or a parameter is redeclared; FUNC_CREATE, a frame holding the parameters, the table entry, one LOCAL_SET per parameter |
| Codegen.Generator.GenFunction | compiler/generator/generator.cpp:345-367 | The same for a declaration: its code, its table entry, the global frame back in place, an error iff it has one |
| Codegen.Generator.Gen | compiler/generator/generator.cpp:93-109 | The same for programs, whose code, good or bad, is followed by HALT |
| Codegen.Generator.GenLine | compiler/generator/generator.cpp:93-101 | The same for one line of the interactive loop |
| Generation.StmtAgrees | compiler/generator/generator.cpp:67-91 | For every tree and every state: frames, errors, and without errors the instructions, registers and pending jumps of Emission |
| Generation.ItemsAgrees | compiler/generator/generator.cpp:103-109 | The same for whole programs, functions included |
| Footprint.StmtFoot | compiler/generator/emit.cpp:33-49 | Compiling any statement, with errors or without: no instruction is lost or changes its kind, no HALT is added, none is changed but recorded jumps and, after an error, the first operand byte of the last one; no instruction leads behind the end of the code |
| Footprint.ItemFoot | compiler/generator/generator.cpp:345-367 | The same for declarations and programs; every FUNC_CREATE keeps a FUNC_END behind it |
| Faithful.CleanIntended | compiler/generator/generator.cpp:111-154 | With no jump of an outer loop pending at a loop, the output is the reference code with exactly the pending jumps recorded |
| Faithful.IfIntended | compiler/generator/generator.cpp:494-518 | The pieces of an `if`, patched one after the other, are the `if` compiled with its targets from the start |
| Faithful.LoopIntended | compiler/generator/generator.cpp:111-142 | The pieces of a loop, patched one after the other, are the loop compiled with its targets from the start |
| Unclean.StmtUnclean | compiler/generator/generator.cpp:133-139 | With such a jump pending, some instruction of the output is wrong, whatever targets an enclosing loop supplies later |
| Unclean.CleanIff | compiler/generator/generator.cpp:111-154 | For every statement whose breaks and continues stand in loops: the generated code is the reference code iff no loop in it is reached with a jump of an outer loop pending |
| Unclean.StmtOutGrows | compiler/generator/generator.cpp:111-154 | A statement changes no earlier instruction except pending jumps, and those only once, to a target further on |
| Driver.GeneratedIff | compiler/generator/generator.cpp:93-154 | The same equivalence for whole programs, functions included |
| Driver.CompileProgram | tools/lm/common/file_run.cpp:37-43 | A fresh generator accepts exactly the programs without errors, which are those that keep the rules of Naming, and compiles a safe and clean one to the code of the correctness theorem |
| Naming.AcceptedIff | compiler/generator/generator.cpp:303-413 | A fresh generator accepts a program iff every name is in scope, every call passes as many arguments as its function has parameters, nothing immutable is reassigned and no function, parameter or name is declared twice, the names that assignments in functions leave behind counted |
| Naming.QuietAcceptedIff | compiler/generator/generator.cpp:303-413 | Where no function assigns to a name in scope that may be reassigned: the same without such names |
| Naming.ExprErrIff | compiler/generator/generator.cpp:321-413 | For expressions in frames that show the names in scope |
| Naming.StmtErrIff | compiler/generator/generator.cpp:303-320 | For statements: no error iff the rules are kept, and the frames show the new names afterwards |
| Naming.OneParameter | compiler/generator/generator.cpp:377-384 | func f(a) { return a }, x = f(1, 2) is refused, as is every call of f without exactly one argument |
| Naming.ArityByte | compiler/generator/generator.hpp:151-158 | A call of a function with n parameters is accepted iff it has n mod 256 arguments |
| Naming.GhostAccepted | compiler/generator/generator.cpp:310 | func p(a, b) { b = 1 return a }, r = b is accepted, though b is no name of the program |
| Naming.GhostRefused | compiler/generator/generator.cpp:349-353 | func p(b) { b = 1 return b }, func q(b) { return b } is refused, though it keeps the plain rules |
| Emission.ItemsErrSame | compiler/generator/generator.cpp:345-413 | Whether a program has errors does not depend on addresses or registers |
| Inside.StmtInside | compiler/generator/generator.cpp:111-154 | After any statement compiles, every instruction that is not a pending jump leads inside the statement or just behind it, also where an inner loop took over outer jumps; calls enter functions at their start |
| Reachable.ReachableSafe | runtime/vm.cpp:109-189 | In every state that an error-free program reaches whose loops get registers for their counters: pc inside the program, one frame more than return addresses, every return address just after an FCALL, no FRET on an empty return stack |
| Repl.LineCode | tools/lm/common/repl.cpp:37-48 | An accepted line leaves earlier code alone and appends its own, no HALT among it |
| Arguments.Received | compiler/generator/generator.cpp:414-421 | A call with calls in any of its arguments: the function starts with parameter j holding the last value passed in place j since argument j was evaluated |
| Arguments.OverwrittenIff | compiler/generator/generator.cpp:414-421 | For numbers: parameter j is argument j iff no call made while the later arguments are evaluated, at whatever depth, passes in place j, or the last one passes the same number |
| Arguments.LaterArguments | compiler/generator/generator.cpp:414-421 | From the text: later arguments without calls that pass in place j, themselves or through the functions they call, pass nothing; those that do in any case pass something |
| Examples.LostArgument | compiler/generator/generator.cpp:414-421 | r = f(x, g(y)) with f returning its first parameter, for all numbers: accepted, meant to give x, and run to HALT gives y |
| Examples.LostDeeper | compiler/generator/generator.cpp:414-421 | The same for r = f(x, g()) with g calling h(y) |
| Examples.WrongLoop | compiler/generator/generator.cpp:133-139 | A program that is not clean: accepted, meant to end with 0, and run to HALT ends with x, because the break of the outer loop goes to the end of the inner one |
| Limits.GivesCallersSlot | runtime/vm.cpp:190-194 | For every compiled function that returns a global variable, and every state about to call it: the call returns the caller's local in that slot |
| Limits.ReadsGlobalIff | runtime/vm.cpp:190-194 | Such calls return the global variable's word for all contents of the frames iff they are made from the top level |
| Examples.ForeignSlot | runtime/vm.cpp:190-194 | v = x, func f() { return v }, func g(a) { return f() }, r = g(y), for all numbers: accepted, and run to HALT gives y |
| Globals.ReturnsSeen | runtime/vm.cpp:190-194 | A function that returns any call-free expression over its parameters and the global variables, called from the top level, returns the value of the expression |
| Globals.ExprSeen | compiler/generator/generator.cpp:234-334 | Call-free code leaves the value of its expression, wherever its variables live, if they are where their names resolve to |
| Grammar.RoundTrip | compiler/parser.cpp:103-149 | Parsing the printed form of any expression tree, parenthesised only where the levels require it, gives the tree back and leaves the rest |
| Grammar.PrintInjective | compiler/parser.cpp:415-515 | Different trees have different printed forms |
| Grammar.FullRoundTrip | compiler/parser.cpp:103-149 | With every operator and minus in parentheses, parsing gives the same tree back as from the printed form with the fewest |
| Grammar.MinusReaches | compiler/parser.cpp:461-464 | -a + b is the negation of the sum |
| Grammar.RelationReaches | compiler/parser.cpp:138-149 | a < b && c compares a with the conjunction |
| Precedence.ProductOnTheRight | compiler/parser.cpp:415-434 | a + b * c is a + (b * c), for all names and each of + - with each of * / % ^ |
| Precedence.ProductOnTheLeft | compiler/parser.cpp:415-434 | a * b + c is (a * b) + c, in the same way |
| Precedence.LeftToRight | compiler/parser.cpp:415-434 | Operators of one group go from left to right |
| Precedence.ComparedOnTheLeft | compiler/parser.cpp:138-149 | a + b < c is (a + b) < c, for each comparison and each of + - * / % ^ |
| Precedence.ComparedOnTheRight | compiler/parser.cpp:138-149 | a < b + c is a < (b + c), for every operator but comparisons, the two logical operators included |
| Precedence.ComparedAgain | compiler/parser.cpp:138-149 | Comparisons group to the right |
| Precedence.OrBeforeAnd | compiler/parser.cpp:118-137 | With OR for its two bars: a && b OR c is a && (b OR c), and a OR b && c is (a OR b) && c |
| Precedence.ComparedInLogic | compiler/parser.cpp:118-149 | a && b < c is a && (b < c), and so with the OR operator |
| Precedence.SumInLogic | compiler/parser.cpp:118-137 | Sums and products are operands of && and OR, on either side |
| Precedence.PipeLast | compiler/parser.cpp:103-117 | A pipe takes all that stands before it, whichever operator that has, except a comparison |
| Precedence.PipeCompared | compiler/parser.cpp:138-149 | The pipe after a < b belongs to b: a compared with what f() makes of b |
| Precedence.PipeTwice | compiler/parser.cpp:103-117 | Pipes go from left to right |
| Precedence.PipeNeedsCall | compiler/parser.cpp:103-117 | On the right of a pipe there has to be a call |
| Precedence.Parenthesised | compiler/parser.cpp:448-460 | (a + b) * c is the product of the sum |
| Precedence.DottedName | compiler/parser.cpp:475-481 | a.b is one name |
| Precedence.DotAtEnd | compiler/parser.cpp:475-481 | A dot behind which no name comes belongs to the name too |
| Precedence.DottedCall | compiler/parser.cpp:475-515 | a.b() calls a.b without arguments |
| Precedence.TwoArguments | compiler/parser.cpp:14-38 | f(a, b) and f(a, b,) are the same call, with its arguments in order |
| Precedence.Annotated | compiler/parser.cpp:319-344 | a : t is a, and nothing behind the annotation is read |
| Precedence.AnnotatedWith | compiler/parser.cpp:319-344 | So is a : t[u, v] |
| Precedence.BadType | compiler/parser.cpp:319-344 | An annotation that is no type is an error |
| Parsing.Parser.ParseExpr | compiler/parser.cpp:103-117 | The parser, over its token position, computes the grammar function from the loosest level; a success moves the position on |
| Parsing.Parser.ParseRelational | compiler/parser.cpp:138-149 | The same for comparisons, whose right operand is a whole expression |
| Parsing.Parser.ParseFactor | compiler/parser.cpp:448-515 | The same for factors: literals, names, calls with the step back, parentheses, minus |
| Parsing.Parser.ParseArgs | compiler/parser.cpp:14-38 | The same for argument lists, trailing comma included |
| Parsing.Parser.ParseType | compiler/parser.cpp:319-344 | The same for type annotations, which are skipped |


## Left out

- Value type tag: a machine value is modelled as its 64 bits; the model never looks at the type of a value at run time, and neither does the machine.
- Strings, the constant pool at run time, MOV_RC and DEBUG_LOG: raw addresses into a vector that may move; the pool is bytes in the file format only.
- Floating point and POW: POW reads integers as doubles; the machine model is stuck there.
- Foreign calls, modules, `use`, VMC: they depend on other libraries and the platform.
- Pipes `|>` and boolean literals: in the grammar and the parser; the generator's trees have truth values but no pipes.
- The operator `!`: the parser does not produce it.
- Lexer, comments and statement parser: tokens are given, and the trees of the grammar are not connected to those of the generator, which also have statements. That break and continue stand in loops and return in functions is a condition (`WellPlaced`); the parser checks it with one static flag that an inner loop clears (`compiler/parser.cpp:169-232`), so it may also refuse a break that stands in a loop, or let one pass after an error.
- Declarations inside blocks: functions are declared at top level only.
- Programs.CompilerCorrect: only for safe programs; a function may read only its own variables and may not reassign them, only first arguments may contain calls, a counter may not be the result of a call, and at a call only registers 1 to 3 may be in use.
- Programs.CompilerCorrect: only for programs whose interpretation ends; those that never end are the subject of `Diverging.HaltsIff`, and nothing is said about those that go wrong (a type error, overflow, a function that does not return).
- Folding.FoldingRefines: for the same programs; the map of addresses (`Relocation.ProgramUnfolds`) is for all.
- Codegen.Generator.GenFunction: no declarations inside the body.
- Codegen.Generator.GenBinary: pipes are not part of the trees.
- Codegen.Generator.GenArgs: without the offset that a pipe gives.
- Codegen.Generator.GenNeg: `!` is not part of the trees.
- Codegen.Generator.GenCall: functions of other libraries are not part of this model.
- Codegen.Generator.GenReturn: a return always has a value here.
- Reachable.ReachableSafe: about the generator's output, which is specified while loops get their counters.
- Counting.LoopCount: bodies without calls; a call keeps the counter only if it is in register 1, 2 or 3 (`Limits.SurvivesIff`).
- Arguments.Received: every argument is safe on its own, so that the calls inside an argument have calls in their first argument only; the same for Arguments.OverwrittenIff.
- Arguments.OverwrittenIff: as Arguments.Received.
- Globals.ReturnsSeen: one return of an expression without calls; the interpreter gives functions no view of global variables.
- Diverging.HaltsIff: for the folded code.
- Naming.AcceptedIff: fewer than 65535 variables in every frame, at which the 16-bit slot counter wraps; the number of parameters counts modulo 256, as in the code.
- Naming.QuietAcceptedIff: the condition under which the plain rules decide is sufficient, not necessary; what decides in every case is Naming.AcceptedIff.
- Leaks.LineHeld: for a line with an expression as a statement inside a block the registers are not given back (`Leaks.BlockLeaks`); how many it keeps is not counted.
- Limits.FunctionStores: fewer than 65535 variables, the number at which the 16-bit slot counter wraps.
- Repl.Session.ReadLine: for lines whose breaks and continues stand in loops, as the parser sees to but for its static flag; a jump that stays pending would later be pointed behind the HALT that bars the machine.
- Repl.RefusedLine: the condition under which the last instruction of the earlier code is unchanged is sufficient, not necessary.
- Binary.BinaryLoader.CheckHead: for the first file a process loads; the buffer is static, and a later short file is completed by what the one before left in it.
- VM.VirtualCore.Run: takes a budget of instructions, because a program need not halt.
- Frames as objects: the stack of frames is a sequence of values that the machine reassigns, not a vector of pointers.
- Console input and output, `print_ops`, command lines: not part of this model.

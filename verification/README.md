# Proofs about the Statick toolchain and the Stannel processor

This project models a stack-language toolchain and proves what it promises: the unifier behind the
Statick type checker, the multi-core processor with rendezvous channels, the memory its processes
live in, the assembler with its two peephole optimisers, and the register-cached stack of the Stannel
core. Rust structures that change in place are classes, loops are loops with invariants, and each
method is tied to a function on values about which the results are proved.

| files | what they model |
|---|---|
| `StatickTypes`, `Unify`, `Unifier` | types, stacks and the two mutually recursive unifiers, as functions and as the methods that extend a `Unifier` |
| `UnifyFragments`, `UnifyProofs`, `UnifyChannels`, `UnifyTheorems`, `UnifyConstraints` | the first-order fragments, termination, soundness with channel variables, principality, where the code stops being unification, and what constraints decide |
| `TypeCloning`, `Application`, `PrincipalTyping`, `SendCounting` | fresh renaming, composition of function types, what the type of a term means, and the counting of channel uses |
| `Topology`, `References`, `ReadingOrder`, `VisitOrder` | the order in which declarations are checked, said of the visit, of the names that occur in terms, and of how they are read |
| `Isa`, `StackMachine` | the instruction set and the abstract machine with a value stack and a call stack |
| `WordMemory`, `MemoryCell`, `CellObject`, `Simulator`, `Conditions`, `InstructionBytes` | byte memory, the 512-byte process cell, the simulator's core, what its conditions decide and what each byte does |
| `ProcessorModel`, `Scheduler`, `Rendezvous`, `Alternation`, `Starting`, `Ending`, `Placement` | the processor on values, what every tick keeps of its cores and of its channels, meetings in an alternation, starts, ends, and who gets which core |
| `Net`, `Threads`, `Interleaving`, `Independence`, `LeftoverFlags` | the processes as a net without cores or time, what a process knows of its core's flags, the proof that a tick is a schedule of the net, and two runs that scheduling tells apart |
| `Heap`, `Metadata`, `ProcessorObject` | the allocator threaded through memory, the metadata cell's bytes, and the processor as it is changed |
| `Peephole`, `Assembler`, `AssembledCode`, `AssemblerBlocks`, `AssembledProgram`, `TokenOptimizer` | the assembler's optimiser, label relaxation, running the bytes, labels and blocks, a whole program in memory, and the code generator's optimiser |
| `RegisterCache`, `RegisterCacheProofs`, `RegisterCore`, `RegisterFetch`, `HardwareAgrees` | the Verilog execute block, the clocked core around it, its refinement of the stack machine, the chip with its fetch unit and flags running a program, and how it compares with the simulator |

How the pieces meet. `MachineOf` reads a process cell's bytes as a machine of `StackMachine`;
`RegisterCacheProofs.Holds` reads the hardware's registers and RAM as the same machine. The processor
model runs machines through an arbitrary function from a core's registers and a machine to an outcome,
of which `Simulator.Tick` on a code memory is one. `Metadata.Represents` reads the last cell's bytes as
the model's process states and channels, and `Heap.Sound` its free blocks as the model's allocator.

Results that came out differently from what the code suggests are stated exactly:

- A step found for a channel's use is not applied to the channel's payload. Unification is still sound,
  complete and most general when each channel variable stands with one payload
  (`UnifyTheorems.PrincipalUnifier`), which a variable inside its own payload cannot; without that it can
  succeed on types that have no unifier (`ChannelVariablesAreUnsound`). In every run that ignores no
  offset, the answer unifies exactly when its steps, applied in order, solve each of them
  (`SoundExactly`); `ChannelBranchExactly` and `ChannelUseExactly` say when an ignored offset shows.
  Binding type and stack variables with arbitrary constraint sets is sound exactly when
  `BindTypeExactly` and `BindStackExactly` say.
- A core's ALU flags stay with the core when its process is descheduled, so a process may rely on them
  only from the operation that set them to its next send, receive, yield or end. A step is the same on
  every core exactly when it does not jump on other flags (`Threads.SettledExactly`,
  `Threads.SettledTickExactly`). If one halting run has only such steps, every run does, and all halting
  runs end the same (`Independence.SchedulingDoesNotMatter`); otherwise the outcome can depend on who was
  on which core (`LeftoverFlags.SchedulingCanMatter`).
- Label relaxation ends at the least layout exactly when there is any layout with every reference in 16
  bits (`Assembler.LayoutExists`, `Assembler.Relax`). When there is none, it may never end
  (`Assembler.NothingSettles`).
- The token optimiser negates a constant before a `not` and keeps the `not`. Step by step, the meaning of
  what was read changes exactly when that happens (`TokenOptimizer.StepExactly`,
  `TokenOptimizer.NegationBreaks`); a lone constant is safe. What follows may hide the change again, so
  the condition is exact for a step and sufficient for a whole program.
- The assembler's optimiser drops an addition of zero, which is the one rewriting that can turn an error
  into a success (`Peephole.RewriteExactly`).
- A process state survives its byte exactly when its core is below 64 (`Metadata.StateRoundTrip`).
- Processes are numbered by how many numbers there are. Numbers stay apart exactly as long as no slot is used
  again (`Placement.NumbersStayApart`); the start after that gives out one that is taken, and the stack of one
  process replaces that of the other among the results (`Placement.ReuseMakesNumbersClash`).
- The chip's flags are not the simulator's: a sum or a difference leaves zero and sign as they were, and
  negation and exclusive or take some signs for an overflow (`HardwareAgrees.FlagsAgreeExactly`). It has no
  shifter (`HardwareAgrees.ShiftsAreLost`). Programs that branch only on comparisons, tests and the two other
  logical operations run alike on both (`HardwareAgrees.ChipFollowsSimulator`).
- A type variable that must be droppable is not bound to a channel whose uses are a variable: its uses become
  none, and the variable stays free (`UnifyConstraints.ConstraintsDecideTypes`).

## Model

| member | source | states |
|---|---|---|
| UnifyTheorems.PrincipalUnifier | statick-tools/src/lib/statick/types/mgu.rs:16-105 | on the first-order fragments, with channel variables that stand with one payload each, unification of types succeeds exactly when some substitution makes them equal; applied step by step its result makes them equal, and every unifier absorbs it on every type and stack |
| UnifyTheorems.PrincipalStackUnifier | statick-tools/src/lib/statick/types/mgu.rs:107-158 | the same for stacks |
| UnifyTheorems.PrincipalRun | statick-tools/src/lib/statick/types/mgu.rs:16-105 | the same with offsets on channel variables, for every run that ignores none |
| UnifyTheorems.PrincipalStackRun | statick-tools/src/lib/statick/types/mgu.rs:107-158 | the same for stacks |
| UnifyTheorems.SoundExactly | statick-tools/src/lib/statick/types/mgu.rs:92-98 | however channel variables stand, an answer makes the types equal exactly when its steps, applied in order, solve each of them |
| UnifyTheorems.ChannelBranchExactly | statick-tools/src/lib/statick/types/mgu.rs:18-25 | for two channels whose payloads do not mention the variable bound for their uses, the answer is right exactly when no offset was ignored or the other variable becomes unbounded |
| UnifyTheorems.Termination | statick-tools/src/lib/statick/types/mgu.rs:8-158 | for any uniform constraint sets and any channel uses unification of types ends, with one result |
| UnifyTheorems.StackTermination | statick-tools/src/lib/statick/types/mgu.rs:107-158 | unification of stacks ends |
| UnifyTheorems.ConstrainedUnifier | statick-tools/src/lib/statick/types/mgu.rs:36-90 | with any uniform constraint sets a success still unifies, and is still absorbed by every unifier; with channel variables if none can take the `Droppable` shortcut |
| UnifyTheorems.Idempotent | statick-tools/src/lib/statick/types/unifier.rs:28-38 | applying the returned steps twice is applying them once |
| UnifyTheorems.ChannelUseExactly | statick-tools/src/lib/statick/types/mgu.rs:160-204 | failure means no substitution unifies the uses; success is sound and most general exactly when no offset was ignored |
| UnifyTheorems.BindTypeExactly | statick-tools/src/lib/statick/types/mgu.rs:45-90 | binding a type variable with arbitrary constraint sets makes both sides equal exactly when they are the same, or are variables of which the other has the constraints, or the variable does not occur and every constraint is met |
| UnifyTheorems.BindStackExactly | statick-tools/src/lib/statick/types/mgu.rs:113-143 | the same for a stack variable |
| UnifyTheorems.AddConstraintsExactly | statick-tools/src/lib/statick/types/stack.rs:86-93 | adding constraints leaves a stack alone exactly when its base has them |
| UnifyTheorems.ChannelVariablesAreUnsound | statick-tools/src/lib/statick/types/mgu.rs:92-98 | two nested channels, one variable with two payloads, that have no unifier, on which the code succeeds without making them equal |
| UnifyTheorems.TypeErrorsClash | statick-tools/src/lib/statick/types/mgu.rs:16-105 | where no constraint can refuse, an error blames two parts that have no unifier |
| UnifyTheorems.StackErrorsClash | statick-tools/src/lib/statick/types/mgu.rs:107-158 | the same for stacks |
| UnifyTheorems.DifferentMakesClash | statick-tools/src/lib/statick/types/mgu.rs:95-104 | types and stacks of different make are blamed as they were given |
| UnifyTheorems.UsesAreBlamed | statick-tools/src/lib/statick/types/mgu.rs:160-204 | of two channel uses the variable is blamed first |
| UnifyConstraints.ConstraintsDecideTypes | statick-tools/src/lib/statick/types/mgu.rs:36-90 | a type variable is bound to a term exactly when the term meets all its constraints; a channel that lacks only `Droppable`, with a variable use at offset 0, has its uses set to none; all else is an error that names exactly what is missing; on either side the answer is the same |
| UnifyConstraints.ConstraintsDecideStacks | statick-tools/src/lib/statick/types/mgu.rs:109-143 | a stack variable is bound exactly to a stack that meets its constraints, and to nothing at all exactly when that is allowed; otherwise the error names what is missing |
| UnifyConstraints.StackConstraintsExactly | statick-tools/src/lib/statick/types/stack.rs:70-84 | which stacks meet which stack constraint, by the types on them |
| UnifyConstraints.ChannelsAreLinear | statick-tools/src/lib/statick/types/type_impl.rs:37-59 | a channel is never duplicated, and dropped only as a receiver without uses |
| UnifyConstraints.PlainTypesAreFree | statick-tools/src/lib/statick/types/type_impl.rs:37-59 | what is no channel, no variable and no counter can be dropped and duplicated; numbers, truth values and counters are integers |
| UnifyConstraints.MustConsumeExcludes | statick-tools/src/lib/statick/types/type_impl.rs:37-59 | what must be used up can be neither dropped nor duplicated |
| UnifyConstraints.VariablesMerge | statick-tools/src/lib/statick/types/mgu.rs:36-41 | two type variables become one with the constraints of both |
| UnifyConstraints.VariablesKeepConstraints | statick-tools/src/lib/statick/types/mgu.rs:16-158 | with any uniform constraint sets, after a success every variable stands for a type or stack that meets its constraints |
| UnifyProofs.TypeContainsIsOccurs | statick-tools/src/lib/statick/types/type_impl.rs:85-110 | on the fragments the equality-based containment test is the occurs check |
| UnifyProofs.TypesTriangular | statick-tools/src/lib/statick/types/mgu.rs:16-105 | the steps are triangular: each target occurs in the inputs and never again, which is the measure of termination |
| UnifyChannels.TypesSound | statick-tools/src/lib/statick/types/mgu.rs:16-105 | a careful success makes the types equal, through nested functions whose outputs are unified first, and leaves each channel variable with one payload in every type that had it so |
| UnifyChannels.StacksSound | statick-tools/src/lib/statick/types/mgu.rs:107-158 | the same for stacks |
| UnifyChannels.TypesEquivalent | statick-tools/src/lib/statick/types/mgu.rs:16-105 | a substitution unifies the types exactly when it solves every step of a success; unconstrained runs fail only when none unifies |
| UnifyChannels.StacksEquivalent | statick-tools/src/lib/statick/types/mgu.rs:107-158 | the same for stacks |
| UnifyChannels.ChannelIsGood | statick-tools/src/lib/statick/types/mgu.rs:18-25 | visiting the payload without the use's step is as good as with it, because the bound variable occurs in neither payload |
| UnifyChannels.ZeroOffsetsAreCareful | statick-tools/src/lib/statick/types/mgu.rs:160-204 | without offsets no run ignores one |
| UnifierObject.Unifier.Add | statick-tools/src/lib/statick/types/unifier.rs:24-26 | one more step at the end |
| UnifierObject.Unifier.Compose | statick-tools/src/lib/statick/types/unifier.rs:28-30 | the other unifier's steps at the end |
| UnifierObject.Unifier.ApplyToType | statick-tools/src/lib/statick/types/unifier.rs:32-38 | the loop applies the steps in order to a type |
| UnifierObject.Unifier.ApplyToStack | statick-tools/src/lib/statick/types/unifier.rs:32-38 | and to a stack |
| UnifierObject.CollectMissing | statick-tools/src/lib/statick/types/mgu.rs:66-77 | the loop finds exactly the constraints that are asked for and that the other type does not have |
| UnifierObject.CollectMissingStack | statick-tools/src/lib/statick/types/mgu.rs:121-131 | and those the other stack does not satisfy |
| UnifierObject.Types | statick-tools/src/lib/statick/types/mgu.rs:16-105 | the visitor extends its unifier by exactly the function's steps, or reports its error; what those are is fixed by principality and by `UnifyConstraints.ConstraintsDecideTypes` |
| UnifierObject.Stacks | statick-tools/src/lib/statick/types/mgu.rs:107-158 | the same for stacks |
| TypeCloning.TypeAllocator.DeepClone | statick-tools/src/lib/statick/types/type_impl.rs:137-172 | the clone is the type under a renaming whose new names lie between the counters before and after, none twice, with the constraints found |
| TypeCloning.TypeAllocator.RenameGenerics | statick-tools/src/lib/statick/types/type_impl.rs:137-150 | a fresh name, with its constraints, for each type variable, however often it occurs |
| TypeCloning.TypeAllocator.RenameStacks | statick-tools/src/lib/statick/types/type_impl.rs:151-163 | the same for stack variables |
| TypeCloning.TypeAllocator.RenameChannels | statick-tools/src/lib/statick/types/type_impl.rs:164-170 | the same for channel variables |
| TypeCloning.CloneIsVariant | statick-tools/src/lib/statick/types/type_impl.rs:174-220 | the renaming is injective: another renaming takes the clone back to the type |
| TypeCloning.CloneKeepsConstraints | statick-tools/src/lib/statick/types/type_impl.rs:240-270 | where a variable always stands with the same constraints, its fresh variable has them |
| TypeCloning.LastMetDecides | statick-tools/src/lib/statick/types/type_impl.rs:240-264 | otherwise it has those the variable is last met with: outputs after inputs, and on a stack what lies below after what lies above |
| TypeCloning.CloneSharesNothing | statick-tools/src/lib/statick/types/type_impl.rs:137-218 | a clone shares no variable with any type made before it, and later types may rely on the same |
| Application.ApplyTo | statick-tools/src/lib/statick/types.rs:602-643 | the composed type and the unifier of one application, or its error |
| Application.VisitTerm | statick-tools/src/lib/statick/types.rs:340-352 | the loop over a term's expressions folds their types and composes the unifiers |
| Application.Annotate | statick-tools/src/lib/statick/types.rs:354-362 | each expression's type under the final unifier |
| Application.NewSendType | statick-tools/src/lib/statick/types/type_alloc.rs:86-104 | the type of a send, with the counters moved by one each |
| Application.PushAll | statick-tools/src/lib/statick/types/type_alloc.rs:186-196 | the loop pushes the types in order |
| Application.CloneOfSend | statick-tools/src/lib/statick/types/type_impl.rs:137-220 | a clone of a send's type is a send's type over the renamed variables |
| PrincipalTyping.TermIsPrincipal | statick-tools/src/lib/statick/types.rs:340-367 | every row of stacks that fits all expressions of a term at once is an instance of the type inferred; where no constraint can refuse, a term that has such a row is refused only for what it leaves over |
| PrincipalTyping.TermIsTyped | statick-tools/src/lib/statick/types.rs:340-367 | what is inferred is such a row: annotated with the whole unifier, the output of each expression is the input of the next |
| PrincipalTyping.AcceptedExactly | statick-tools/src/lib/statick/types.rs:602-643 | one more expression whose input unifies is accepted exactly when neither the composed type nor a function among the arguments leaves over what it must use up |
| PrincipalTyping.BeginningsUseUp | statick-tools/src/lib/statick/types.rs:345-352 | no beginning of a typed term leaves over what it must use up |
| PrincipalTyping.UnconsumedExactly | statick-tools/src/lib/statick/types/stack.rs:103-139 | what is left over is what must be used up, comes in, and is found somewhere in what goes out |
| PrincipalTyping.TopmostIsBlamed | statick-tools/src/lib/statick/types.rs:613-633 | of several arguments that leave something over, the one nearest to the top is blamed |
| SendCounting.SendIsPrincipal | statick-tools/src/lib/statick/types/mgu.rs:107-158 | the unification behind a send, with channel variables and an offset, is principal |
| SendCounting.RepeatSends | statick-tools/src/lib/statick/types.rs:340-352 | the allocator and cloning give each copy of `1 !` its own variables |
| SendCounting.CountSends | statick-tools/src/lib/statick/types.rs:340-367 | so visiting a term of `k` sends gives it the counted type |
| SendCounting.NextSend | statick-tools/src/lib/statick/types.rs:602-643 | one more send raises the uses a sender must come with by one |
| SendCounting.SendsAreCounted | statick-tools/src/lib/statick/types.rs:340-367 | `k` sends of numbers, for every `k` above zero, take a sender with `k` more uses and return it with none of them, with payload int |
| Topology.SortIsTopological | statick-tools/src/lib/statick/types.rs:222-306 | over the references the visitor meets, the sort succeeds exactly when every one is known; each declaration is listed once, after all it refers to that do not lead back to it |
| References.SortIsByOccurrence | statick-tools/src/lib/statick/types.rs:222-306 | said of the syntax: the sort succeeds exactly when every name that occurs in a declaration is declared, in the environment or one of the five with a parameter, and otherwise names one that is not; each declaration is listed once, behind each that occurs in it and does not lead back to it |
| References.NamesOccur | statick-tools/src/lib/statick/ast.rs:134-190 | the visit of a term meets exactly the names that occur in it, on a way down through parts of expressions |
| ReadingOrder.NamesAreReadInOrder | statick-tools/src/lib/statick/ast.rs:145-190 | and it meets them as they are read: every place where a name stands, in dictionary order of the way down |
| VisitOrder.NamesInOrder | statick-tools/src/lib/statick/types.rs:235-266 | a visit enters exactly what its names reach past what was entered before, and lists earlier what an earlier name reaches |
| VisitOrder.DeclarationInOrder | statick-tools/src/lib/statick/types.rs:259-266 | a declaration is listed behind everything its references reach past it |
| Topology.NamesSucceed | statick-tools/src/lib/statick/types.rs:235-266 | the invariant of the depth-first visit: what is open leads to what is visited next, and what is finished is in order |
| Topology.DeclarationFails | statick-tools/src/lib/statick/types.rs:235-256 | a failed visit names something that is referred to and unknown |
| Topology.Visitor.VisitName | statick-tools/src/lib/statick/types.rs:235-256 | a declared name is visited, a known one passed over, another is an error |
| Topology.Visitor.VisitDeclaration | statick-tools/src/lib/statick/types.rs:259-266 | a declaration is entered once and listed when its term is done; ends on cyclic references |
| Topology.Visitor.VisitTerm | statick-tools/src/lib/statick/ast.rs:145-150 | the loop over expressions visits the term's references in order |
| Topology.Visitor.VisitExpression | statick-tools/src/lib/statick/ast.rs:152-166 | the references of each kind of expression, in the visitor's order; `References.NamesOccur` and `ReadingOrder.NamesAreReadInOrder` say which these are, and in which order |
| Topology.Visitor.VisitArms | statick-tools/src/lib/statick/ast.rs:172-177 | those of the arms of an alternation |
| Topology.Visitor.VisitProgram | statick-tools/src/lib/statick/ast.rs:134-139 | all declarations in order |
| Topology.SortDefinitionsTopologically | statick-tools/src/lib/statick/types.rs:277-305 | positions in the program, a permutation, in the order of the visit |
| Isa.DecodeEncode | statick-tools/src/lib/isa/instruction.rs:150-198 | what an instruction encodes to decodes to it |
| Isa.EncodeDecode | statick-tools/src/lib/isa/instruction.rs:150-198 | a byte comes back exactly up to the operand that the local accesses ignore |
| WordMemory.WordFrame | statick-tools/src/lib/memory.rs:12-42 | a word reads back as written, and a write leaves every other word alone |
| WordMemory.WordsAreTwoBytes | statick-tools/src/lib/memory.rs:12-42 | only even addresses have words, which are two bytes with the high one first |
| WordMemory.ReadByteIsIndexing | statick-tools/src/lib/memory/word_io.rs:5-13 | reading a byte through words is indexing; one byte past an odd-sized memory reads as zero |
| WordMemory.WriteByteIsUpdate | statick-tools/src/lib/memory/word_io.rs:15-24 | writing a byte through words changes that byte only; the last byte of an odd-sized memory cannot be written |
| MemoryCells.PushedStack | statick-tools/src/lib/process/value_stack.rs:18-22 | the bytes after a push represent the machine with the word on top, calls and counter as before |
| MemoryCells.DroppedStack | statick-tools/src/lib/process/value_stack.rs:13-16 | moving the stack pointer drops words and changes nothing else |
| MemoryCells.WrittenLocal | statick-tools/src/lib/core/core_impl.rs:385-397 | writing a word of the stack changes that entry only |
| MemoryCells.MovedCounter | statick-tools/src/lib/memory/memory_cell.rs:51-53 | a new counter changes neither stack |
| MemoryCells.PushedCall | statick-tools/src/lib/process/call_stack.rs:13-18 | a pushed call changes neither value stack nor counter |
| MemoryCells.PoppedCall | statick-tools/src/lib/process/call_stack.rs:5-11 | a popped call is the last one pushed |
| CellObject.MemoryCell.constructor | statick-tools/src/lib/memory/memory_cell.rs:21-33 | a new cell is an empty machine |
| CellObject.MemoryCell.Blank | statick-tools/src/lib/memory/memory_cell.rs:14-18 | an untouched cell is zero |
| CellObject.MemoryCell.ReadWord | statick-tools/src/lib/memory.rs:24-42 | the word there, or an error |
| CellObject.MemoryCell.WriteWord | statick-tools/src/lib/memory.rs:12-22 | the two bytes, or an error for an odd address |
| CellObject.MemoryCell.ReadByte | statick-tools/src/lib/memory/word_io.rs:5-13 | the byte there |
| CellObject.MemoryCell.WriteByte | statick-tools/src/lib/memory/word_io.rs:15-24 | the byte there, and no other |
| CellObject.MemoryCell.InitialiseWithProgramCounter | statick-tools/src/lib/memory/memory_cell.rs:27-33 | an empty machine at the counter |
| CellObject.MemoryCell.Pop | statick-tools/src/lib/process/value_stack.rs:6-11 | the top of the stack, or an error that changes nothing |
| CellObject.MemoryCell.Push | statick-tools/src/lib/process/value_stack.rs:18-22 | one more word on top |
| CellObject.MemoryCell.PopMany | statick-tools/src/lib/process/value_stack.rs:13-16 | that many words fewer |
| CellObject.MemoryCell.Peek | statick-tools/src/lib/process/value_stack.rs:35-41 | the entry at an offset, or nothing past the base |
| CellObject.MemoryCell.StackValues | statick-tools/src/lib/process/value_stack.rs:43-50 | the whole stack, top first |
| CellObject.MemoryCell.PushCall | statick-tools/src/lib/process/call_stack.rs:13-18 | one more call |
| CellObject.MemoryCell.PopCall | statick-tools/src/lib/process/call_stack.rs:5-11 | the last call |
| CellObject.MemoryCell.StackBlockCopy | statick-tools/src/lib/memory/memory_cell.rs:35-43 | the other cell's top words, copied byte by byte, stand on this stack |
| CellObject.StartChild | statick-tools/src/lib/processor/mod.rs:225-240 | what the parent had on its stack is what the child has followed by what the parent keeps |
| Simulator.Core.AluOperation | statick-tools/src/lib/core/core_impl.rs:90-191 | operands, result and flags of each operation on the bytes; `InstructionBytes` and `Conditions` say what result and flags mean |
| Simulator.Core.StackOperation | statick-tools/src/lib/core/core_impl.rs:337-374 | drop, dup, swap, tuck and rot on the bytes |
| Simulator.Core.ConstantOperation | statick-tools/src/lib/core/core_impl.rs:193-249 | the pushes with the byte after them, and the small addition |
| Simulator.Core.LocalOperation | statick-tools/src/lib/core/core_impl.rs:376-397 | reading and writing an entry of the stack, with its bounds |
| Simulator.Core.JumpOn | statick-tools/src/lib/core/core_impl.rs:251-264 | a jump pops its target unless it is never taken |
| Simulator.Core.CallOn | statick-tools/src/lib/core/core_impl.rs:314-322 | a call remembers where to go on |
| Simulator.Core.ReturnOn | statick-tools/src/lib/core/core_impl.rs:323-335 | a return goes there, or halts with no calls left |
| Simulator.Core.ProcessOn | statick-tools/src/lib/core/core_impl.rs:266-312 | the operations that report a message to the processor |
| Simulator.Core.TickOn | statick-tools/src/lib/core/core_impl.rs:18-61 | a tick on a cell's bytes is the tick of the machine they represent, whose instructions `InstructionBytes` gives byte by byte |
| Conditions.BranchDecides | statick-tools/src/lib/statick/codegen.rs:335-357 | `a b compare`, a label and a jump, run from memory with any flags: the core goes to the label exactly when the relation of the jump's low four bits holds between `a` and `b` (equal, less or greater, signed or not, and their negations, overflow of the difference) |
| Conditions.DifferenceDecides | statick-tools/src/lib/core/core_impl.rs:95-120 | after a comparison or a subtraction each condition is its relation between the operands, signed numbers read in two's complement |
| Conditions.SumDecides | statick-tools/src/lib/core/core_impl.rs:95-120 | after an addition zero and sign are those of the sum, carry and overflow that it left the unsigned and the signed range |
| Conditions.ResultDecides | statick-tools/src/lib/core/core_impl.rs:127-191 | the other operations set zero and sign by the word they leave, and clear carry and overflow; a test looks at the conjunction |
| Conditions.LastBitNegates | statick-tools/src/lib/core/flags.rs:34-53 | the last bit of a condition negates it |
| InstructionBytes.BinaryBytes | statick-tools/src/lib/core/core_impl.rs:90-191 | by byte: two words become the one word that is their sum, difference, shift or bitwise combination; a shift by sixteen or more is an error |
| InstructionBytes.OtherOperationBytes | statick-tools/src/lib/core/core_impl.rs:90-191 | a negation turns every bit, a test and a comparison take two words away |
| InstructionBytes.LogicIsBitwise | statick-tools/src/lib/core/core_impl.rs:169-182 | and, or, exclusive or and not, bit by bit |
| InstructionBytes.StackBytes | statick-tools/src/lib/core/core_impl.rs:337-374 | drop, duplicate, swap, tuck and rotate by byte |
| InstructionBytes.ReadBytes | statick-tools/src/lib/core/core_impl.rs:376-397 | reading and writing a local by the offset in the byte |
| InstructionBytes.LocalBytes | statick-tools/src/lib/core/core_impl.rs:376-397 | and by the offset on the stack |
| InstructionBytes.LongPushBytes | statick-tools/src/lib/core/core_impl.rs:215-249 | the long pushes with the byte behind them |
| InstructionBytes.AddBytes | statick-tools/src/lib/core/core_impl.rs:201-213 | the small addition, cut to sixteen bits |
| InstructionBytes.JumpsPop | statick-tools/src/lib/core/core_impl.rs:251-264 | one jump pops nothing, the others fail without a target, and one is always taken |
| InstructionBytes.CallReturns | statick-tools/src/lib/core/core_impl.rs:314-335 | a return comes back behind its call |
| InstructionBytes.ProcessBytes | statick-tools/src/lib/core/core_impl.rs:266-312 | by byte: what a process asks for, and what it takes off its stack |
| Scheduler.TickKeepsScheduler | statick-tools/src/lib/processor/mod.rs:161-380 | whatever the cores report, cores and process states agree after a tick, no process waits while a core is idle, and the processor halts exactly when nothing can run |
| Scheduler.Run | statick-tools/src/lib/processor/mod.rs:528-531 | so it is in every state of every run |
| Scheduler.Initial | statick-tools/src/lib/processor/mod.rs:84-113 | and at the start, with one process on the first core |
| Scheduler.OneCoreEach | statick-tools/src/lib/processor/mod.rs:133-142 | the map from cores to processes is injective |
| Scheduler.TasksDecide | statick-tools/src/lib/processor/mod.rs:305-373 | who may run after the tick is decided by its tasks: scheduled, taken off, or as before |
| Scheduler.RemovesAll | statick-tools/src/lib/processor/mod.rs:312-339 | the first pass frees the cores of those it stops, each once |
| Scheduler.PlacesAll | statick-tools/src/lib/processor/mod.rs:341-356 | the second pass makes everyone asked for runnable and touches nobody else |
| Scheduler.PlacesWaiting | statick-tools/src/lib/processor/mod.rs:358-373 | after the third pass whoever still waits found no idle core |
| Rendezvous.EveryRunDelivers | statick-tools/src/lib/processor/mod.rs:250-268 | in every run of every disciplined system each channel has received what was sent, or all but the last value exactly while its sender waits in the slot; who is in a slot does not run |
| Rendezvous.TickKeepsRendezvous | statick-tools/src/lib/processor/mod.rs:161-380 | a tick keeps this, through direct delivery, blocking, waking, making and deleting channels; the sends of the tick are appended to the log |
| Rendezvous.StaysFair | statick-tools/src/lib/processor/mod.rs:250-268 | one channel over one tick |
| Rendezvous.MidSlotStep | statick-tools/src/lib/processor/mod.rs:209-276 | one core's message changes only the channel it names, as expected |
| Rendezvous.NamedTasksStep | statick-tools/src/lib/processor/mod.rs:428-474 | and asks for the process that slept there, or stops its own |
| Rendezvous.SleepersSleep | statick-tools/src/lib/processor/mod.rs:312-356 | the scheduler leaves those who wait in slots alone |
| Rendezvous.StillNamedOnce | statick-tools/src/lib/processor/mod.rs:428-474 | no process waits in two slots |
| Rendezvous.SendEffect | statick-tools/src/lib/processor/mod.rs:428-461 | a send on a slot |
| Rendezvous.ReceiveEffect | statick-tools/src/lib/processor/mod.rs:463-474 | a receive on a slot |
| Rendezvous.NewEffect | statick-tools/src/lib/processor/mod.rs:420-426 | a new channel is not one that is in use, and is empty |
| Starting.TickStarts | statick-tools/src/lib/processor/mod.rs:225-240 | over a whole tick in which one process starts another: the first dead slot can run next, from the given address, with the top words of its parent's stack and no calls; the parent goes on with the rest, on its core |
| Starting.StartsChild | statick-tools/src/lib/processor/mod.rs:225-240 | a start succeeds exactly when there is a dead slot and the parent has the words; only child and parent change, only the child is scheduled, and the child's stack followed by the parent's is what the parent had |
| Starting.StartInCells | statick-tools/src/lib/processor/mod.rs:234-239 | the bytes of the two cells, split as the simulator splits them, are these machines |
| Starting.SlotIsFirst | statick-tools/src/lib/processor/mod.rs:518-526 | the slot is the first dead one, and there is none exactly when the search fails |
| Ending.TickStops | statick-tools/src/lib/processor/mod.rs:325-334 | over a whole tick in which a process ends or yields: it is dead or inactive, with the stack it had, and the stack of one that ended is kept by its number |
| Placement.IdleInOrder | statick-tools/src/lib/processor/mod.rs:305-310 | idle cores are listed in order |
| Placement.FreedLast | statick-tools/src/lib/processor/mod.rs:312-339 | those freed in the tick come behind them |
| Placement.AskedInOrder | statick-tools/src/lib/processor/mod.rs:341-356 | the last listed core goes to whoever is asked for first |
| Placement.WaitingInOrder | statick-tools/src/lib/processor/mod.rs:358-373 | and what is left goes to those who wait, the lowest process first |
| Placement.FinalsAreKept | statick-tools/src/lib/processor/mod.rs:327-334 | the stacks of all who end are kept by number |
| Placement.NumbersStayApart | statick-tools/src/lib/processor/mod.rs:231-233 | a start keeps numbers apart exactly when its slot had none yet |
| Placement.ReuseMakesNumbersClash | statick-tools/src/lib/processor/mod.rs:231-233 | the start after a slot has been used again gives a number that is taken |
| Alternation.OrderDoesNotMatter | statick-tools/src/lib/processor/mod.rs:428-516 | enabling, sending and disabling on one channel, and sending first: the value goes over once, and both end alike |
| Alternation.EnabledFirst | statick-tools/src/lib/processor/mod.rs:476-516 | when the receiver enables first it sleeps until the send wakes it |
| Alternation.SentFirst | statick-tools/src/lib/processor/mod.rs:476-516 | when the sender is first it sleeps, and the receiver does not |
| Alternation.NothingGoesOver | statick-tools/src/lib/processor/mod.rs:493-516 | if nobody sends, disabling undoes enabling |
| Alternation.SendToWoken | statick-tools/src/lib/processor/mod.rs:439-454 | a second sender sleeps and wakes nobody |
| Alternation.LastSenderIsHeard | statick-tools/src/lib/processor/mod.rs:189-198 | of several senders on a channel in one cycle the last core's value is received |
| Alternation.AnswersReach | statick-tools/src/lib/processor/mod.rs:299-303 | every answer reaches its core's process and nobody else |
| Net.StepsCommute | statick-tools/src/lib/processor/mod.rs:189-198 | steps of two ready processes commute, whoever comes first at their channel |
| Net.OneOutcome | statick-tools/src/lib/processor/mod.rs:161-380 | all schedules that end take the same number of steps and end in the same net |
| Net.NoScheduleFails | statick-tools/src/lib/processor/mod.rs:161-380 | if one schedule ends, whoever is ready under any other can step |
| Net.NoScheduleIsLonger | statick-tools/src/lib/processor/mod.rs:161-380 | and no other schedule has more steps |
| Net.HandOver | statick-tools/src/lib/processor/mod.rs:250-268 | a value is handed over by the sender or fetched by the receiver with the same result |
| Net.StepKeepsValid | statick-tools/src/lib/processor/mod.rs:428-474 | who waits in a channel is blocked, and waits in no other |
| Threads.FollowIsRight | statick-tools/src/lib/core/core_impl.rs:18-61 | a settled step is what happens on whatever core the process is on, and the flags it then knows are the core's |
| Threads.SettledExactly | statick-tools/src/lib/core/core_impl.rs:251-264 | a step is the same on every such core exactly when it is no disable and does not jump, to other than the next address, on flags it does not know |
| Threads.KnownExactly | statick-tools/src/lib/core/core_impl.rs:90-191 | an arithmetic or logic operation makes the flags known, meeting another process forgets them, all else keeps what is known |
| Threads.OperationSettlesJump | statick-tools/src/lib/statick/codegen.rs:346-357 | so a compare settles the jump behind it, whatever is pushed in between |
| Threads.SettledTickExactly | statick-tools/src/lib/processor/mod.rs:177-206 | the steps of a tick are settled exactly when no system that differs in unknown flags steps otherwise |
| Interleaving.NetStep | statick-tools/src/lib/processor/mod.rs:189-276 | one step of the net does what one core's instruction and message do |
| Independence.TickIsSchedule | statick-tools/src/lib/processor/mod.rs:161-380 | a settled tick is the schedule in which the running processes step once each in core order, and what is known afterwards is so |
| Independence.RunIsSchedule | statick-tools/src/lib/processor/mod.rs:528-531 | every settled run is a schedule |
| Independence.RunsAreSettled | statick-tools/src/lib/processor/mod.rs:528-531 | if any schedule of the net ends, every run is settled |
| Independence.SchedulingDoesNotMatter | statick-tools/src/lib/processor/mod.rs:161-380 | two halting runs from systems that differ in cores, registers and scheduling, one of them settled, execute equally many instructions and end with the same machines and channels, up to the stale value of an empty channel |
| Independence.NoRunIsStuck | statick-tools/src/lib/processor/mod.rs:161-380 | if one settled run halts, no other executes more instructions or meets an error |
| Independence.ProcessEnds | statick-tools/src/lib/processor/mod.rs:189-302 | a process's machine, flags and state at the end of a tick, from the messages of the tick |
| LeftoverFlags.SchedulingCanMatter | statick-tools/src/lib/core/core_impl.rs:251-264 | a program and a system of two cores whose two halting runs, with the processes on the cores the other way round, end with different stacks |
| LeftoverFlags.DifferingRunsAreUnsettled | statick-tools/src/lib/processor/mod.rs:161-380 | in any two such runs someone jumps on leftover flags |
| Heap.AllocIsSound | statick-tools/src/lib/memory/heap.rs:26-38 | an allocation hands out a block that was not live, and fails exactly when as many blocks are live as fit |
| Heap.FreeIsSound | statick-tools/src/lib/memory/heap.rs:40-44 | a freed block is listed first and live no more |
| Heap.ListHasNoCycle | statick-tools/src/lib/memory/heap.rs:30-33 | the list through the freed blocks is acyclic and ends with 0 |
| Heap.LiveBlocks | statick-tools/src/lib/memory/heap.rs:26-44 | live blocks lie in the heap and overlap neither each other nor a listed block |
| Heap.WritesKeepSound | statick-tools/src/lib/memory/heap.rs:26-44 | whatever is written in live blocks, the heap stays sound |
| Heap.Allocator.constructor | statick-tools/src/lib/memory/heap.rs:13-24 | a new heap is sound, with nothing live |
| Heap.Allocator.Alloc | statick-tools/src/lib/memory/heap.rs:26-38 | fresh blocks first, then the last freed; fails exactly at capacity |
| Heap.Allocator.Free | statick-tools/src/lib/memory/heap.rs:40-44 | one word written, the block first on the list |
| Metadata.StateRoundTrip | statick-tools/src/lib/process/state.rs:10-27 | a state survives its byte exactly when its core is below 64 |
| Metadata.StatesByByte | statick-tools/src/lib/process/state.rs:10-27 | the states by their bytes; zero is a dead process |
| Metadata.ProcessRoundTrip | statick-tools/src/lib/processor/mod.rs:383-413 | a channel's word gives back the process and the alternation bit |
| Metadata.StateWritten | statick-tools/src/lib/processor/mod.rs:133-142 | writing a state changes that state, no other and no channel |
| Metadata.StateRead | statick-tools/src/lib/processor/mod.rs:144-150 | a state reads as last written |
| Metadata.ProcessWritten | statick-tools/src/lib/processor/mod.rs:399-413 | writing who waits changes that channel's process only |
| Metadata.ValueWritten | statick-tools/src/lib/processor/mod.rs:415-418 | writing a value changes that channel's value only |
| Metadata.ChannelRead | statick-tools/src/lib/processor/mod.rs:383-397 | a channel reads as last written |
| Metadata.ChannelMade | statick-tools/src/lib/processor/mod.rs:420-426 | the cleared block is an empty channel, all else as before |
| Metadata.FreeKeeps | statick-tools/src/lib/processor/mod.rs:244-248 | the link written in a freed channel touches no state and no other channel |
| Metadata.DeletingFrees | statick-tools/src/lib/processor/mod.rs:245-249 | deleting a channel is freeing its block: the bytes with the link hold the channels that are left, and the model's free list is the heap's |
| Metadata.AllocAgrees | statick-tools/src/lib/memory/heap.rs:26-38 | the processor model's allocator takes the heap's blocks |
| Metadata.MakingFailsWhenFull | statick-tools/src/lib/processor/mod.rs:420-426 | making a channel fails exactly when all the cell has room for are in use |
| ProcessorObject.Processor.constructor | statick-tools/src/lib/processor/mod.rs:46-114 | the processor with its instructions set |
| ProcessorObject.Processor.WriteState | statick-tools/src/lib/processor/mod.rs:133-142 | the byte of one state, and the core's process |
| ProcessorObject.Processor.ReadState | statick-tools/src/lib/processor/mod.rs:144-150 | the state |
| ProcessorObject.Processor.ReadChannel | statick-tools/src/lib/processor/mod.rs:383-397 | the channel's process, bit and value |
| ProcessorObject.Processor.WriteProcess | statick-tools/src/lib/processor/mod.rs:399-413 | one channel's process and bit |
| ProcessorObject.Processor.WriteValue | statick-tools/src/lib/processor/mod.rs:415-418 | one channel's value |
| ProcessorObject.Processor.CreateChannel | statick-tools/src/lib/processor/mod.rs:420-426 | the model's new channel, or its failure |
| ProcessorObject.Processor.Send | statick-tools/src/lib/processor/mod.rs:428-461 | the model's send on bytes |
| ProcessorObject.Processor.Receive | statick-tools/src/lib/processor/mod.rs:463-474 | the model's receive on bytes |
| ProcessorObject.Processor.EnableChannel | statick-tools/src/lib/processor/mod.rs:476-491 | the model's enable |
| ProcessorObject.Processor.DisableChannel | statick-tools/src/lib/processor/mod.rs:493-516 | the model's disable |
| ProcessorObject.Processor.FindDead | statick-tools/src/lib/processor/mod.rs:518-526 | the loop finds the first dead process slot |
| ProcessorObject.Processor.StartProcess | statick-tools/src/lib/processor/mod.rs:225-240 | a start on bytes and maps is the model's, of which `Starting.StartsChild` says who gets what |
| ProcessorObject.Processor.HandleMessage | statick-tools/src/lib/processor/mod.rs:212-298 | each message as the model handles it |
| ProcessorObject.Processor.ExecuteAll | statick-tools/src/lib/processor/mod.rs:177-206 | the loop over cores, with the sends and listeners of the cycle |
| ProcessorObject.Processor.HandleAll | statick-tools/src/lib/processor/mod.rs:209-299 | the loop over messages |
| ProcessorObject.Processor.AnswerAll | statick-tools/src/lib/processor/mod.rs:301-306 | the loop over answers |
| ProcessorObject.Processor.RemoveAll | statick-tools/src/lib/processor/mod.rs:316-340 | the first pass over tasks |
| ProcessorObject.Processor.PlaceAll | statick-tools/src/lib/processor/mod.rs:342-356 | the second pass |
| ProcessorObject.Processor.PlaceTheWaiting | statick-tools/src/lib/processor/mod.rs:358-373 | the third pass, which stops when no core is idle |
| ProcessorObject.Processor.Tick | statick-tools/src/lib/processor/mod.rs:161-381 | a tick on bytes, maps and vectors is the model's tick |
| Peephole.OptimisedMeansTheSame | statick-tools/src/lib/assembler/mod.rs:136-198 | the optimised list keeps raw bytes at their prefixes and, wherever the original runs, leaves the same value stack, whatever instructions outside the straight line do |
| Peephole.RewriteIsLighter | statick-tools/src/lib/assembler/mod.rs:145-190 | every rewriting lowers a weight, so the inner loop ends |
| Peephole.RewriteExactly | statick-tools/src/lib/assembler/mod.rs:148-188 | a rewriting changes the outcome exactly when it drops an addition of zero to an empty stack |
| Peephole.FuseKeeps | statick-tools/src/lib/assembler/mod.rs:163-183 | a fused pair does what the pair did, errors included |
| Peephole.OptimisedOnceIsEnough | statick-tools/src/lib/assembler/mod.rs:136-198 | the result has nothing left to rewrite anywhere, so a second pass changes nothing |
| Peephole.OptimisedIsCompact | statick-tools/src/lib/assembler/mod.rs:136-198 | said of the instructions: no zero is added, and no small push stands before an addition or an access to a local that it could join |
| Peephole.PeepholeOptimise | statick-tools/src/lib/assembler/mod.rs:136-198 | the two loops over the deque compute the optimised list |
| Assembler.Relax | statick-tools/src/lib/assembler/mod.rs:200-235 | if there is any layout with room enough, the loop ends at a layout in which each push is as long as its target needs, below every such layout |
| Assembler.LayoutExists | statick-tools/src/lib/assembler/mod.rs:200-235 | there is a least settled layout with every reference in 16 bits exactly when there is any with room enough |
| Assembler.NothingSettles | statick-tools/src/lib/assembler/mod.rs:214-235 | blocks near the end of the 16 bits for which no layout is settled, so that the loop does not end |
| Assembler.LayOut | statick-tools/src/lib/assembler/mod.rs:216-235 | one turn lays out again and tells whether anything moved |
| Assembler.Initial | statick-tools/src/lib/assembler/mod.rs:201-212 | the first layout has one byte for each push |
| Assembler.FirstIsFromZero | statick-tools/src/lib/assembler/mod.rs:201-212 | it is how the blocks lie when every reference is to the beginning |
| Assembler.KeepsGrowing | statick-tools/src/lib/assembler/mod.rs:214-235 | offsets only grow, and stay below every roomy layout |
| Assembler.FlattenBlocks | statick-tools/src/lib/assembler/mod.rs:237-246 | the blocks in a row, with each reference as the push of its block's offset in the least layout |
| Assembler.CodeStarts | statick-tools/src/lib/assembler/mod.rs:237-246 | each block's code starts where the layout says |
| AssembledCode.LabelPushesItsOffset | statick-tools/src/lib/assembler/mod.rs:237-246 | running a label's bytes leaves exactly the byte offset of its block and goes on at the next one |
| AssembledCode.OffsetIsCut | statick-tools/src/lib/assembler/mod.rs:228-231 | the push of any offset leaves its low sixteen bits |
| AssembledCode.BytesRun | statick-tools/src/lib/core/core_impl.rs:18-61 | encoded straight-line instructions, ticked from memory, do what the list does |
| AssembledCode.PushRuns | statick-tools/src/lib/isa/instruction.rs:204-219 | the instructions of a push leave the word on the stack |
| AssemblerBlocks.CreateBlocks | statick-tools/src/lib/assembler/mod.rs:85-134 | the loops split the tokens into blocks and resolve the labels |
| AssemblerBlocks.NothingIsLost | statick-tools/src/lib/assembler/mod.rs:96-121 | the blocks in a row are the tokens' instructions and references in a row |
| AssemblerBlocks.LabelMarksItsPlace | statick-tools/src/lib/assembler/mod.rs:107-113 | the last definition of a label names the block before which stands exactly what stands before the label |
| AssemblerBlocks.Assemble | statick-tools/src/lib/assembler/mod.rs:248-259 | the bytes of the optimised blocks in the least settled layout; a panic exactly when a label has no definition or no code after it |
| AssembledProgram.StretchRuns | statick-tools/src/lib/assembler/mod.rs:85-259 | tokens to bytes: every stretch of straight-line instructions of the source, from and to a label or an instruction outside the straight line, does in the assembled bytes what it does in the source |
| AssembledProgram.BarrierStands | statick-tools/src/lib/assembler/mod.rs:136-198 | every other instruction stands where the stretch before it ends |
| AssembledProgram.ReferenceRuns | statick-tools/src/lib/assembler/mod.rs:200-259 | a reference in the source leaves the place, in the bytes, of the code behind its label |
| AssembledProgram.ResolvesExactly | statick-tools/src/lib/assembler/mod.rs:125-131 | each named block becomes its block; a name that no label has is the only error |
| TokenOptimizer.OptimisedMeansTheSame | statick-tools/src/lib/statick/codegen/optimizer.rs:11-94 | if no step breaks, the optimised tokens leave the same stack wherever the original does not underflow |
| TokenOptimizer.StepExactly | statick-tools/src/lib/statick/codegen/optimizer.rs:27-88 | a step keeps the meaning exactly unless it meets a negation after a constant that is not the first token |
| TokenOptimizer.NegationBreaks | statick-tools/src/lib/statick/codegen/optimizer.rs:62-74 | `1 2 not` leaves one word, its optimised form another |
| TokenOptimizer.FirstBreakShows | statick-tools/src/lib/statick/codegen/optimizer.rs:62-74 | the first step that breaks shows in the result |
| TokenOptimizer.WithoutNotNeverBreaks | statick-tools/src/lib/statick/codegen/optimizer.rs:62-74 | tokens without a negation never break |
| TokenOptimizer.FoldIsAlu | statick-tools/src/lib/statick/codegen/optimizer.rs:42-61 | folding is the arithmetic unit's result, when it fits 16 bits |
| TokenOptimizer.StopsExactly | statick-tools/src/lib/statick/codegen/optimizer.rs:42-61 | the optimiser stops exactly where a sum or a difference of two constants would leave 16 bits |
| TokenOptimizer.OptimisedIsTidy | statick-tools/src/lib/statick/codegen/optimizer.rs:11-94 | in the result no two constants stand before an operation that folds them, and nothing stands before a drop or a swap that cancels it |
| TokenOptimizer.Peephole | statick-tools/src/lib/statick/codegen/optimizer.rs:11-94 | the loop over tokens, or the overflow that stops it |
| RegisterCache.ExecuteBlock | stannel/Execute.v:169-516 | defaults, overrides and shared assignments compute the block's outputs |
| RegisterCacheProofs.RunRefines | stannel/Core.v:371-407 | over every run that does not get stuck or collide, registers and RAM hold the plain machine's two stacks, waiting edges included, and the counter is the machine's unless the last instruction took a following byte |
| RegisterCacheProofs.InstructionRefines | stannel/Core.v:371-407 | one instruction of the core, with its refill, is one step of the plain machine; whether a fetch follows is `RegisterFetch.GoesOnExactly` |
| RegisterFetch.ProgramRuns | stannel/Core.v:371-520 | the chip alone, with its fetch unit, flags and program memory: from edge to edge it runs whatever program is there as the plain machine does |
| RegisterFetch.InstructionRuns | stannel/Core.v:371-520 | one instruction, fetched, executed, refilled |
| RegisterFetch.GoesOnExactly | stannel/Core.v:508-514 | with nothing to wait for, the core goes on without a fetch exactly when the instruction is no call or return and the next counter is the expected one |
| RegisterFetch.Latches | stannel/FetchInstruction.v:44-66 | when it goes on, the unit is one byte ahead of the right place; when it does not, the unit follows the core's counter again |
| RegisterFetch.ProgramStarts | stannel/FetchStack.v:44-91 | from a saved process the registers are filled, the first byte is fetched, and the chip is at the program |
| RegisterFetch.ProgramHalts | stannel/Execute.v:333-350 | a return with no call left stops it with the stacks as they are |
| RegisterFetch.UndefinedStops | stannel/Execute.v:169-516 | and so does a byte that is no instruction |
| HardwareAgrees.ChipFollowsSimulator | stannel/Core.v:371-520 | the chip gets to every machine the simulator gets to on the same bytes, as long as no conditional jump looks at flags on which they differ |
| HardwareAgrees.FlagsAgreeExactly | stannel/Alu.v:78-105 | when the chip's flags are the simulator's, by operation and operands |
| HardwareAgrees.ConditionsAgree | stannel/Alu.v:108-126 | on the same flags both decide every condition alike |
| HardwareAgrees.ShiftsAreLost | stannel/Alu.v:103-104 | a shift leaves zero on the chip, which is right exactly when the shift leaves nothing |
| HardwareAgrees.BytesInWords | stannel/FetchInstruction.v:27-28 | the program's bytes in the chip's words, the first one high |
| RegisterCacheProofs.ReadsGoWhereMeant | stannel/Core.v:373-378 | a word read from RAM goes to the register it is meant for, cut to its width, and to no other |
| RegisterCacheProofs.BlockDoes | stannel/Execute.v:169-516 | what the block puts out for each instruction |
| RegisterCacheProofs.PushHolds | stannel/Execute.v:228-260 | a push keeps the cache right, with the third register spilled at the wrapped address |
| RegisterCacheProofs.DropHolds | stannel/Execute.v:274-279 | a drop keeps it right once the third register is refilled |
| RegisterCacheProofs.CallHolds | stannel/Execute.v:314-332 | a call keeps it right |
| RegisterCacheProofs.ReturnHolds | stannel/Execute.v:333-350 | a return keeps it right |
| RegisterCacheProofs.FinishReaches | stannel/Io.v:54-65 | the read that follows refills a register, or the following byte completes a long push |
| RegisterCacheProofs.FetchFills | stannel/FetchStack.v:44-91 | seven edges fill the three registers from RAM |
| RegisterCore.IceRam.Edge | stannel/IceRam.v:16-27 | a write takes effect after the edge, and the output is what was stored before |
| RegisterCore.Core.Tick | stannel/Core.v:340-415 | the clocked registers and the RAM do what the function on values does |
| RegisterCore.Core.LatchExecute | stannel/Core.v:371-397 | the registers after an execute state, with the phase that follows; `RegisterCacheProofs.ReadsGoWhereMeant` and `RegisterFetch.Latches` say which words go where and when a fetch is due |
| RegisterCore.Core.LatchIo | stannel/Core.v:398-407 | the registers after an I/O state |

## Left out

- UnifyTheorems.PrincipalUnifier: is about types whose type variables have no constraints and whose stack variables have one uniform set, and whose channel variables have no offset and one payload each; outside that the code is not first-order unification, and the exact lemmas say where. `PrincipalRun` allows offsets in runs that ignore none.
- UnifyTheorems.Termination: is about uniform constraint sets, because with unequal ones the occurs check compares constraints as well as names.
- UnifierObject.Types: takes a ghost bound on the depth of recursion, which `Termination` shows there is on the fragments.
- SendCounting.SendsAreCounted: takes each copy's variables as distinct, which `RepeatSends` derives from the allocator.
- Application.VisitTerm: takes the types of the expressions as given; visiting literals and names is modelled for `1 !` only.
- Application.NewSendType: is the send at offset 0.
- CellObject.MemoryCell.Push: asks for room; in the simulator a push into a full cell overwrites the call stack.
- CellObject.MemoryCell.PushCall: asks for room; in the simulator a call in a full cell overwrites the value stack.
- CellObject.MemoryCell.PopMany: asks for as many words as it drops; the simulator calls it only after it has copied that many, which fails when there are fewer.
- CellObject.MemoryCell.PopCall: asks for a call; the simulator's caller checks first.
- Simulator.Core.LocalOperation: fails on a write outside the stack, which the simulator does not check.
- Rendezvous.EveryRunDelivers: is about systems without enable and disable, in which each channel has one sender and one receiver and nobody uses a channel in the cycle in which another deletes it; the slot does not record which side waits.
- Rendezvous.TickKeepsRendezvous: says that values enter the log of what was received when they are put on a stack; the model pushes and logs in the same place.
- Independence.SchedulingDoesNotMatter: is about a fixed set of processes and channels, without alternation. What is known of the flags is forgotten at every send and receive, also at those that happen not to block, because which ones block depends on the schedule.
- ProcessorObject.Processor.constructor: sets the processes up; the instruction bytes are the model's code memory and are not copied.
- ProcessorObject.Processor.Tick: leaves out uses of a channel that is not allocated, which read and write other metadata in the simulator; process cells are machines here, and `CellObject` shows how bytes represent them.
- ProcessorObject.Processor.StartProcess: two starts in one cycle find the same slot, as in the simulator; nothing is claimed about the children in that case.
- Scheduler.TickKeepsScheduler: holds for any number of cores on values; the bytes of the metadata cell hold core numbers below 64 only.
- RegisterCacheProofs.RunRefines: takes the fetch unit's expected counter and the evaluated jump condition as inputs; `RegisterFetch.ProgramRuns` puts the unit, the flags and the program memory in their place. Both are about the instructions the hardware has: shifts give zero there, and writes to locals are compiled out.
- RegisterFetch.ProgramRuns: the wires that the block leaves open carry any function of the instruction and the registers, which stay put over both cycles; saving, and what follows it, is not modelled.
- HardwareAgrees.ChipFollowsSimulator: says nothing of the operations that ask the processor for something.
- Assembler.Relax: asks for blocks that can be laid out, which is necessary for a settled layout with every reference in 16 bits; whether the loop ends at a wrong layout or never when there is none is left open beyond the example.
- RegisterCache.ExecuteBlock: process opcodes are errors here, as messages are not modelled.
- RegisterCacheProofs.BlockDoes: says nothing of the process opcodes.
- AssembledCode.BytesRun: says that registers stay where there is no arithmetic or logic, and does not speak of the flags elsewhere; `Conditions` does.
- TokenOptimizer.OptimisedMeansTheSame: does not speak of the flags, which a folded operation no longer sets.
- Heap.AllocIsSound: asks that sums of addresses stay inside 16 bits, and that base and block size are even.
- Alternation.OrderDoesNotMatter: is about one channel and one sender; which of several guards wins, and what a jump out of the disabling sequence leaves behind, are not modelled.
- Starting.TickStarts: is about ticks with one start, in which neither the parent nor a dead slot stands in a channel.
- Ending.TickStops: is about ticks without starts, and a process that stands in no channel; that the stack is kept under its number is stated while numbers are apart.
- PrincipalTyping.TermIsPrincipal: is about the first-order fragments, with channel variables without offset, and `TermIsTyped` about expressions that share no variable, as clones do.
- TypeCloning.TypeAllocator.DeepClone: which fresh variable replaces which is not stated, only that they are distinct.
- VisitOrder.NamesInOrder: is about successful visits; of a failed one `References.SortIsByOccurrence` says that the name it reports is unknown and occurs, not that it is the first.
- Constraint solving: consumption checks, mixed constraint sets, and the types of conditionals, loops and alternation arms.
- The checker's standard library, its environment lookup and the comparison of inferred with generic types.
- Code generation besides its optimiser: blocks, labels of terms and their collapse.
- Hardware save and resume, messages, channels and arbitrary stack writes: submodules or headers are not part of this model.
- Undefined opcodes that the simulator turns into instructions without a check are errors here.
- Lexing, parsing, printing, files, serial ports and command-line tools.

# A model of a small optimising compiler

The repository compiles a C-like language in stages: a builder turns the syntax tree of a function into
blocks and instructions, passes put them into static single assignment form and improve them, and a code
generator emits LoongArch assembly. This project models these stages over one intermediate representation
and proves what each is for. Methods of classes follow the source step by step; what they compute is
stated by predicates over paths, runs and memories, which are then shown to mean what a reader expects.

- **Dominators.** Immediate dominators, frontiers, tree and intervals agree with their definitions by paths.
- **Promotion of variables.** Phi placement and renaming; the result does what the memory form did.
- **Building.** The code of every typed integer function behaves as a big-step evaluation of its syntax, in
  calls that end and in calls that do not.
- **Loops.** Detection finds exactly the natural loops and their nesting. Code motion, over the whole nest,
  leaves no loop with an operation that uses nothing of it, and changes no run, if loads and calls leave quiet
  loops only.
- **Dead code and purity.** What is removed cannot be seen, also in whole programs with recursive calls.
- **Use lists.** Every list says exactly which operands hold its value.
- **Code generation.** The emitted text, run with a program counter on a model of the machine, does what the
  function does, calls others as it does, and returns with `sp`, `fp` and `ra` restored.
- **The pipeline.** The stages are composed, from the syntax to the result of all passes, and from there to the
  machine: it leaves the function if and only if the evaluation of the syntax returns, and then as that does
  (`EndToEnd.SourceOnMachine`, `EndToEnd.MachineOnSource`). `GcdExample` follows one function all the way, and
  `SourceMeaning` and `Arithmetic` say in plain numbers what expressions and emitted code compute.

Parts meet in `Ir.dfy` (functions and their runs), `Ssa.dfy` (single assignment), `Cfg.dfy` (graphs and
dominance), `Ast.dfy` (the meaning of the syntax), `LowIr.dfy` and `LoongArch.dfy` (typed instructions and
the machine). Instruction semantics of the machine are those of the LoongArch Reference Manual, Volume 1,
sections 2.2.1 to 2.2.5.

## Findings

Where the code does not do what one would expect of it, the project has the exact condition and an input.

| what fails | source | condition | input |
|---|---|---|---|
| The walk for dominance frontiers looks up a null idom and throws. | src/passes/Dominators.cpp:155-168 | if and only if an unreachable block branches to a reachable one (`DominatorAnalysis.Dominators.CreateDominanceFrontier`); for built functions, if and only if the body is not `SealedList` (`Pipeline.Compile`) | an `if` whose two branches return, inside another `if` or a `while` (`Pipeline.ReturnsThenJoin`) |
| `remove_operand` leaves use lists that miss an operand. | src/lightir/User.cpp:31-41 | if and only if the next operand is the same value (`UseLists.RemovedConsistent`) | a user with one value as both operands (`UseLists.EqualNeighbours`) |
| Copies one after the other are not the parallel assignment of the phis. | src/codegen/CodeGen.cpp:38-63 | if and only if a copy reads a phi that an earlier copy has overwritten (`PhiCopies.CopiesExact`) | two phis that swap their values (`PhiCopies.SwapClashes`) |
| `le` and `ge` give the wrong answer. | src/codegen/CodeGen.cpp:403-413 | if and only if the right operand of `le`, or the left one of `ge`, is 2147483647 (`LowIr.CompareExact`) | anything `le` 2147483647 (`LowIr.LeAtLargest`) |
| A load is moved out of a loop that stores to the same variable. | src/passes/LICM.cpp:133-150 | only if a load or a call can be moved out of a loop that stores or makes a call that can be seen (not `QuietLoops.LoopsSafe`); in all other functions every run stays the same (`LoopMotion.LoopInvariantCodeMotion.Run`). Not always then: what is loaded may be unused | `while (g < 1) g = g + 1;` with a global `g` does not end (`GlobalLoop.MotionUnsound`) |
| An element address is not the element's. | src/codegen/CodeGen.cpp:552-573 | if and only if index times size is negative or needs more than 32 bits (`LowIr.OffsetExact`) | index 1073741824 of an array of ints, which passes the check of the index (`LowIr.OffsetOfBillion`); index -1, if code motion has moved the address in front of the check (`LowIr.OffsetOfMinusOne`) |
| The instruction of an alloca cannot be encoded. | src/codegen/CodeGen.cpp:324-334 | if and only if its offset needs more than 12 bits (`CodeGeneration.CodeGen.GenAlloca`) | an array of 600 ints (`Fragments.AllocaTooFar`) |

The dominator analysis itself is right for every graph, also for irreducible ones and with unreachable
blocks, although it walks the blocks in list order: `DominatorAnalysis.Dominators.CreateIdom` needs neither
reducibility nor an order. The copies before a conditional branch also overwrite the phis of the successor
that is not taken (`MachineRun.EdgeAgrees`). A second declaration of a name in one scope is ignored
(`CminusBuilder.Scope.Push`).

## Model

Paths are relative to the root of the repository.

| member | source | states |
|---|---|---|
| DominatorAnalysis.Dominators.RunOnFunc | src/passes/Dominators.cpp:33-47 | for every control-flow graph and every order of its block list, the recorded idoms are the true immediate dominators, by paths from the entry; the analysis ends normally if and only if no edge leads from an unreachable block to a reachable one, and then frontiers, tree and intervals are exact too |
| DominatorAnalysis.Dominators.CreateReversePostOrder | src/passes/Dominators.cpp:77-80 | exactly the reachable blocks get a number; the numbers differ, and a dominator never has a smaller one than what it dominates |
| DominatorAnalysis.Dominators.Dfs | src/passes/Dominators.cpp:89-98 | the search numbers everything that it reaches and that was not visited, and nothing else; each finished block has a path to it whose other blocks are still open or finished later |
| DominatorAnalysis.Dominators.Intersect | src/passes/Dominators.cpp:58-68 | both chains climb and meet, also where numbers do not rise along them; what is returned is on both chains, and whatever dominates both blocks dominates it |
| DominatorAnalysis.Dominators.NewIdom | src/passes/Dominators.cpp:130-136 | no idom if no predecessor has one; else a block on the chains of all processed predecessors that every strict dominator of the block dominates |
| DominatorAnalysis.Dominators.CreateIdom | src/passes/Dominators.cpp:109-145 | the iteration ends with the true immediate dominator of every reachable block, after at most as many passes as there are blocks, whatever the order of the list; unreachable blocks keep none |
| DominatorAnalysis.ClimbStep | src/passes/Dominators.cpp:60-65 | the side with the smaller post-order number may move up to its idom: it is itself no common dominator, so none is lost |
| IdomTree.CoveredIsIdom | src/passes/Dominators.cpp:122-144 | once the paths accounted for are as long as the number of blocks, every record is the immediate dominator |
| DominatorAnalysis.Dominators.RunnerWalk | src/passes/Dominators.cpp:159-165 | the runner stops, and adds the block to the frontiers of exactly the blocks from the predecessor up to, and without, the idom; it throws if and only if the block is reachable and the predecessor is not |
| DominatorAnalysis.Dominators.CreateDominanceFrontier | src/passes/Dominators.cpp:155-168 | the frontier of x has exactly the blocks b with a predecessor that x dominates while x does not strictly dominate b (the entry is never in its own); it throws exactly when an unreachable block branches to a reachable one |
| DominatorAnalysis.Dominators.CreateDomTreeSucc | src/passes/Dominators.cpp:177-185 | the children of a block in the tree are exactly the blocks whose immediate dominator it is |
| DominatorAnalysis.Dominators.CreateDomDfsOrder | src/passes/Dominators.cpp:202-217 | a dominates b if and only if the number of b lies in the interval of a; the reversed order lists every reachable block once and no block before one that it strictly dominates |
| DominatorAnalysis.Dominators.IsDominate | include/passes/Dominators.hpp:32-35 | true exactly when every path from the entry to the second block passes the first |
| MemToReg.Mem2Reg.Run | src/passes/Mem2Reg.cpp:21-41 | if no unreachable block branches to a reachable one (otherwise the pass throws), the result does the same as the memory form in every environment, for runs of any length that read no slot before writing it; reachable blocks have no stores left, phis stand exactly on the iterated frontiers, no load that a store reaches is used, and the result is in single assignment form |
| MemToReg.Mem2Reg.CollectStores | src/passes/Mem2Reg.cpp:61-76 | for each slot exactly the blocks that store to it |
| MemToReg.Mem2Reg.PlacePhis | src/passes/Mem2Reg.cpp:82-102 | the worklist that grows while it is walked gives one phi of the slot to each block of the iterated dominance frontier of its store blocks, and to no other |
| MemToReg.Mem2Reg.GeneratePhi | src/passes/Mem2Reg.cpp:58-104 | over all slots: a block has a phi for a slot if and only if it is in the iterated frontier of the stores to that slot, and all new phis have identities of their own |
| MemToReg.Mem2Reg.ScanBlock | src/passes/Mem2Reg.cpp:107-129 | each load is replaced by the last store or phi of its slot on the way down the dominator tree, everywhere in the function, and stays if there is none |
| MemToReg.Mem2Reg.LinkSuccessors | src/passes/Mem2Reg.cpp:131-142 | every phi of every successor gets the value on top of its slot's stack, for this block, or no pair if the stack is empty |
| MemToReg.Mem2Reg.PopBlock | src/passes/Mem2Reg.cpp:148-164 | the stacks are as they were when the block was entered, no pop meets an empty stack, and exactly the stores of promoted slots are erased |
| MemToReg.Mem2Reg.Rename | src/passes/Mem2Reg.cpp:106-165 | the visit of a subtree of the dominator tree renames exactly its blocks and returns with every stack as it was on entry |
| MemToReg.Mem2Reg.ReplaceAllUseWith | src/lightir/Value.cpp:24-31 | all operands, pairs of phis and conditions of the function that held the value hold the other one, and nothing else changes |
| Simulation.RenamingRefines | src/passes/Mem2Reg.cpp:106-165 | renaming preserves meaning: same events, same blocks, same result, for runs of any length, as long as no slot has been read before it was written |
| Simulation.EdgeTops | src/passes/Mem2Reg.cpp:131-142 | into a block without a phi of the slot every edge brings the same value: what is on top at the end of its immediate dominator |
| PhiPlacement.PlacedAtJoins | src/passes/Mem2Reg.cpp:85-102 | a block has a phi of the slot if and only if a chain of frontiers leads to it from a store of the slot |
| PhiPlacement.MeetingHasPhi | src/passes/Mem2Reg.cpp:85-102 | where two walks, from two different stores of a slot, first meet, there is a phi of the slot |
| StoreReach.LoadReplacedIff | src/passes/Mem2Reg.cpp:122-128 | a load is replaced if and only if some store of its slot reaches it along some path |
| StoreReach.StackNotEmpty | src/passes/Mem2Reg.cpp:125-127 | wherever a store of the slot reaches along some path, the stack is not empty |
| StoreReach.ReplacedUnused | src/passes/Mem2Reg.cpp:122-128 | after renaming, nothing uses a load that has been replaced |
| Renaming.TopsInScope | src/passes/Mem2Reg.cpp:106-146 | what is on top of a stack is defined on every path to that point |
| RenamedForm.RenamedIsSsa | src/passes/Mem2Reg.cpp:106-165 | in the result every value has one definition, which comes before its uses on all paths; operands of phis are defined at the end of their predecessor, and pairs are for reachable predecessors only |
| CminusBuilder.Scope.Push | include/cminusfc/cminusf_builder.hpp:27-30 | a name that the innermost scope has already keeps its first meaning and the result is false; otherwise it is added there and in no other scope |
| CminusBuilder.Scope.FindName | include/cminusfc/cminusf_builder.hpp:32-44 | the meaning of the innermost scope that has the name |
| CminusBuilder.Scope.Exit | include/cminusfc/cminusf_builder.hpp:20-20 | the innermost scope goes, with all its names, and the others stay |
| CminusBuilder.CminusfBuilder.CreateBr | src/lightir/Instruction.cpp:150-155 | predecessor and successor lists still say exactly what the terminators say, and a block with one successor is listed once |
| CminusBuilder.CminusfBuilder.CreateCondBr | src/lightir/Instruction.cpp:156-167 | the same for two targets, also when they are one block |
| CminusBuilder.CminusfBuilder.VisitFunDeclaration | src/cminusfc/cminusf_builder.cpp:93-167 | every block has exactly one terminator and nothing after it, the lists mirror the terminators, branches go forward except from the end of a loop to its head, and every run of the code is the one that the declaration prescribes |
| CminusBuilder.CminusfBuilder.VisitStmt | src/cminusfc/cminusf_builder.cpp:171-289 | the code of a statement, in any environment in which its variables have their slots, ends where the big-step meaning ends: behind it, in a return with that value, or nowhere, after the same events |
| CminusBuilder.CminusfBuilder.VisitCompoundStmt | src/cminusfc/cminusf_builder.cpp:171-194 | shadowing declarations are undone at the end; statements after one that has ended the block are not built, and are not executed either |
| CminusBuilder.CminusfBuilder.VisitDeclarations | src/cminusfc/cminusf_builder.cpp:179-181 | each declaration binds its name in the innermost scope only |
| CminusBuilder.CminusfBuilder.VisitStatements | src/cminusfc/cminusf_builder.cpp:183-188 | the statements run one after the other up to the first that does not end normally |
| CminusBuilder.CminusfBuilder.VisitSelectionStmt | src/cminusfc/cminusf_builder.cpp:203-240 | exactly one branch runs, chosen by the condition, and the branches that do not return meet again |
| CminusBuilder.CminusfBuilder.VisitIterationStmt | src/cminusfc/cminusf_builder.cpp:242-268 | the loop runs its body as long as its condition holds; it does not end if and only if the meaning does not |
| CminusBuilder.CminusfBuilder.VisitReturnStmt | src/cminusfc/cminusf_builder.cpp:270-289 | the block is ended with the value of the expression |
| CminusBuilder.CminusfBuilder.VisitExpr | src/cminusfc/cminusf_builder.cpp:357-506 | the code leaves the value of the expression, after the same events, or has left the function if an index was negative |
| CminusBuilder.CminusfBuilder.VisitAssign | src/cminusfc/cminusf_builder.cpp:357-371 | the right-hand side is evaluated before the place it goes to |
| CminusBuilder.CminusfBuilder.VisitAssignIndex | src/cminusfc/cminusf_builder.cpp:357-371 | the right-hand side first, then the index with its check, then the store |
| CminusBuilder.CminusfBuilder.VisitVar | src/cminusfc/cminusf_builder.cpp:291-355 | reads a variable, or gives its place; arrays decay to the address of their first element |
| CminusBuilder.CminusfBuilder.VisitElement | src/cminusfc/cminusf_builder.cpp:315-346 | the address of the element, computed after the check of the index |
| CminusBuilder.CminusfBuilder.Guard | src/cminusfc/cminusf_builder.cpp:316-337 | a negative index is reported and leaves the function with 0 or nothing; any other index goes on |
| CminusBuilder.CminusfBuilder.VisitRelation | src/cminusfc/cminusf_builder.cpp:373-428 | left operand first; 1 if the comparison holds and 0 if not |
| CminusBuilder.CminusfBuilder.VisitArith | src/cminusfc/cminusf_builder.cpp:430-485 | left operand first, then right, then an add, sub, mul or sdiv, for +, -, * and / in this order |
| CminusBuilder.CminusfBuilder.VisitCall | src/cminusfc/cminusf_builder.cpp:487-506 | the arguments from left to right, then one call event with their values |
| CminusBuilder.CminusfBuilder.VisitVarDeclaration | src/cminusfc/cminusf_builder.cpp:60-91 | an int gets a slot of its own, an array its address; the name is bound in the innermost scope |
| CminusBuilder.CminusfBuilder.VisitGlobal | src/cminusfc/cminusf_builder.cpp:68-86 | a global variable or array is bound to its address, in the only scope there is, unless the name is taken |
| CminusBuilder.CminusfBuilder.VisitParams | src/cminusfc/cminusf_builder.cpp:129-153 | each argument is stored in a slot of its own, and its name bound to that slot |
| ControlCode.LoopRun | src/cminusfc/cminusf_builder.cpp:242-268 | from the loop head the code does what any number of times round the loop does, by induction on the fuel |
| FunctionCode.BuiltRun | src/cminusfc/cminusf_builder.cpp:93-167 | running the code from its entry does what calling the function does |
| CompiledCode.BuiltSame | src/cminusfc/cminusf_builder.cpp:93-506 | the built function, and every refinement of it, returns exactly when the source function does, with the same value and events, and each comes as far as the other in runs that do not end |
| CompiledCode.ReadyForPasses | src/cminusfc/cminusf_builder.cpp:93-167 | built code is well-formed, its values are unique and dominate their uses, and nothing branches to its entry |
| LiveBlocks.ReachedExactly | src/cminusfc/cminusf_builder.cpp:203-268 | given a set of blocks that no block outside leads into and outside which every block is led to (`Flow`), exactly those are unreachable; by the syntax of the body: `Pipeline.ReachedBySyntax` |
| LiveBlocks.BuiltReducible | src/cminusfc/cminusf_builder.cpp:203-268 | every built graph is reducible: in the order of building, branches go forward or to a block that dominates them |
| BuiltLoops.BuiltClean | src/cminusfc/cminusf_builder.cpp:242-268 | if no unreachable block branches to a reachable one, every natural loop of built code is entered from one block outside, by an unconditional branch, and comes back by one unconditional branch |
| Pipeline.ReachedBySyntax | src/cminusfc/cminusf_builder.cpp:203-268 | all blocks are reached, and no unreachable block branches to a reachable one, exactly when two conditions on the statements hold |
| Pipeline.ReturnsThenJoin | src/cminusfc/cminusf_builder.cpp:203-240 | an if whose two branches return, inside another if or a loop, makes an unreachable block that branches to a reachable one |
| Pipeline.Compile | src/cminusfc/main.cpp:62-73 | builder and promotion: promotion fails if and only if the body is not sealed; the result behaves as the declaration says in every good call, has no reachable stores, and has the form that the later passes need |
| Pipeline.CompileAndClean | src/cminusfc/main.cpp:69-73 | with dead code elimination behind them: as far as can be seen the function still does what its declaration says, in calls that end and calls that do not, and nothing more can be removed |
| Pipeline.MoveAndClean | src/cminusfc/main.cpp:74-77 | with code motion and another dead code elimination: the same, if loads and calls can be moved out of quiet loops only (`QuietLoops.LoopsSafe`); and in any case no operation is left in a loop in between whose operands all come from outside it |
| SourceMeaning.ArithOnMachine | src/cminusfc/cminusf_builder.cpp:430-485 | on the machine sums, differences and products are those of the numbers, wrapped at 32 bits, and quotients truncate, with a remainder that is smaller than the divisor and has the sign of the dividend; the left operand comes first |
| SourceMeaning.RelationOnMachine | src/cminusfc/cminusf_builder.cpp:373-428 | a comparison is 1 if it holds of the numbers and 0 if it does not, for each of the six operators |
| SourceMeaning.ElementOnMachine | src/cminusfc/cminusf_builder.cpp:291-355 | element i of an array lies 4i bytes behind its start, and a negative index is reported and leaves |
| SourceMeaning.StoredOnMachine | src/cminusfc/cminusf_builder.cpp:357-371 | a load finds what was stored at its address last |
| SourceMeaning.CallOnMachine | src/cminusfc/cminusf_builder.cpp:487-506 | arguments are evaluated and passed from left to right, and the call has the value that the callee gives for them |
| Evaluation.ReturnsOnce | src/cminusfc/cminusf_builder.cpp:171-289 | the big-step evaluation that the theorems speak of has one result: with more fuel a call returns the same |
| Evaluation.NeverWrong | src/cminusfc/cminusf_builder.cpp:93-289 | a well-typed function whose local variables are arrays never goes wrong: names are used for what they are, and every variable that is read has a value |
| GcdExample.GcdReturns | src/cminusfc/cminusf_builder.cpp:203-289 | a whole function with a loop and a two-sided if: the evaluation of gcd by subtraction returns the greatest common divisor of every two positive numbers |
| ElementExample.PutReturns | src/cminusfc/cminusf_builder.cpp:291-371 | a function that stores an element and returns it: it gives back what it stored, or 0 after the report of a negative index |
| ElementExample.MixedFine | src/cminusfc/cminusf_builder.cpp:171-371 | a statement with arrays, globals, calls and a loop is well-typed and does not go wrong |
| LoopFinding.LoopDetection.RunOnFunc | src/passes/LoopDetection.cpp:105-130 | there is one loop for each target of a back edge; its blocks are, without repeats, the header and the blocks that reach a latch without passing it; parents are the smallest enclosing loops and sub-loops their inverse; it throws exactly when the dominator analysis does |
| LoopFinding.LoopDetection.DiscoverLoopAndSubLoops | src/passes/LoopDetection.cpp:32-90 | the worklist ends although it jumps over loops that were found before, and what has been collected then is the whole natural loop |
| LoopFinding.LoopDetection.Visit | src/passes/LoopDetection.cpp:37-89 | one block of the list: taken, or taken over with its outermost loop, or skipped; each time something gets smaller |
| LoopFinding.LoopDetection.Outermost | src/passes/LoopDetection.cpp:69-73 | climbing the parents ends, in the loop that grows or in one without a parent that has the block |
| LoopFinding.LoopDetection.FindLatches | src/passes/LoopDetection.cpp:109-116 | exactly the predecessors that the block dominates |
| LoopNest.LoopComplete | src/passes/LoopDetection.cpp:37-89 | when the list is empty the blocks are exactly those of the natural loop |
| NaturalLoops.LoopsNest | src/passes/LoopDetection.cpp:66-86 | two natural loops that share a block are nested, so taking over a whole loop is right |
| LoopMotion.LoopInvariantCodeMotion.Run | src/passes/LICM.cpp:16-29 | for functions whose loops read no stack slot: definitions still dominate uses, all loops are entered as cleanly as before, their headers are the same, and none is left with an operation on registers, a load, or (in functions that are not impure) a call whose operands all come from outside it; stores and calls that may do more are in the blocks and in the order that they were in. For every choice of events that count: if loads and calls can be moved only out of loops without such events (`QuietLoops.LoopsSafe`), every run does what it did (the result may only be some blocks later) |
| LoopMotion.LoopInvariantCodeMotion.TraverseLoop | src/passes/LICM.cpp:36-45 | inner loops first, each once; afterwards the loop and all loops inside are settled, and loops settled before still are |
| LoopMotion.LoopInvariantCodeMotion.CollectLoopInfo | src/passes/LICM.cpp:51-81 | exactly the instructions of the natural loop, although inner preheaders are listed by their direct parents only |
| LoopMotion.LoopInvariantCodeMotion.FindInvariants | src/passes/LICM.cpp:104-180 | in rounds over the instructions in any order: each operation found uses nothing of the loop but earlier ones, and every other operation on registers, load, or call that may be moved uses something of the loop that stays; stores and other calls are never found |
| InvariantSets.InvariantsLeast | src/passes/LICM.cpp:104-180 | what is found does not depend on the order of the set: it is the least set closed under invariance |
| LoopMotion.LoopInvariantCodeMotion.RunOnLoop | src/passes/LICM.cpp:88-267 | exactly the invariant operations are moved in front of the loop; a loop with settled inner loops becomes settled; form and nesting of the function are kept, and its meaning if loads and calls leave quiet loops only |
| LoopMotion.LoopInvariantCodeMotion.RelabelPhis | src/passes/LICM.cpp:193-205 | pairs for blocks that the loop does not list are for the preheader, all others as before |
| LoopMotion.LoopInvariantCodeMotion.RedirectPreds | src/passes/LICM.cpp:212-242 | the one predecessor outside branches to the preheader, and latches are left alone |
| LoopMotion.LoopInvariantCodeMotion.MoveInstrs | src/passes/LICM.cpp:244-259 | each invariant operation leaves the block that it is in and stands in the preheader in the order of the list |
| LoopMotion.LoopInvariantCodeMotion.InsertPreheader | src/passes/LICM.cpp:190-262 | the four steps together give the graph with the edge into the loop split by the new block |
| Hoisting.HoistedLags | src/passes/LICM.cpp:193-262 | for any such function and plan that takes loads and calls out of quiet loops only: after any number of blocks of the old function the new one has been, no earlier, in the same place with the same values and the same events that count |
| QuietLoops.SafeKept | src/passes/LICM.cpp:36-45 | when one loop has been rewritten, loads and calls can still be moved out of quiet loops only: operations that can be moved one after the other then could be before |
| GlobalLoop.MotionUnsound | src/passes/LICM.cpp:133-150 | a loop that counts a global variable up: whatever the motion makes of it never returns, although the function returns 1, because the loads are moved past the store |
| GlobalLoop.LoopForms | src/passes/LICM.cpp:88-267 | that function has the form that promotion and clean-up give, so the pass takes it |
| StoresStay.EffectsMoved | src/passes/LICM.cpp:119-141 | stores, and calls in functions that are not pure, keep their blocks and their order, and the preheader has none |
| QuietLoops.SafeByText | src/passes/LICM.cpp:133-150 | loops without stores through pointers and without calls that can be seen are safe, and so are loops without loads and without calls that can be moved |
| HoistedForm.SsaKept | src/passes/LICM.cpp:244-262 | after the move every definition still comes before its uses on all paths, in the preheader too |
| InvariantLoops.SettledStays | src/passes/LICM.cpp:244-255 | nothing that an outer loop moves lies in an inner loop that is settled, so searching the listed blocks finds it |
| InvariantLoops.FitKept | src/passes/LICM.cpp:182-267 | the other loops stay entered by one branch, and the new preheader is what enters this one |
| Preheaders.LoopKept | src/passes/LICM.cpp:182-262 | splitting the entering edge leaves all old blocks in the loops that they were in |
| Preheaders.NewInLoop | src/passes/LICM.cpp:264-267 | the preheader is in exactly the loops around this one |
| Preheaders.DominatesKept | src/passes/LICM.cpp:182-262 | splitting the edge changes no dominance between old blocks |
| DeadCodeElimination.DeadCode.Run | src/passes/DeadCode.cpp:6-19 | the rounds end; as far as can be seen the function does what it did, no block but the entry is without predecessors, and from every phi, load and operation left a chain of uses leads to a terminator, a store, or an event that can be seen |
| DeadCodeElimination.DeadCode.ClearBasicBlocks | src/passes/DeadCode.cpp:21-36 | exactly the blocks that had no predecessors go, with their entries in the lists of their successors |
| DeadCodeElimination.DeadCode.MarkCriticals | src/passes/DeadCode.cpp:42-49 | what decides where control goes, what a slot holds, or makes an event that can be seen is on the list, and nothing else |
| DeadCodeElimination.DeadCode.Mark | src/passes/DeadCode.cpp:38-71 | marked is the least set with the critical instructions that is closed under operands |
| DeadCodeElimination.DeadCode.Sweep | src/passes/DeadCode.cpp:73-94 | exactly the instructions that are not marked go; changed exactly if there were any |
| Marking.SweptSeenAs | src/passes/DeadCode.cpp:73-94 | removing what is not needed cannot be seen in runs of any length |
| Marking.SweptUses | src/passes/DeadCode.cpp:73-94 | no instruction that is left uses one that was removed |
| Marking.SweptAgain | src/passes/DeadCode.cpp:6-17 | a second round over a swept function removes nothing |
| CleanedForm.FormSwept | src/passes/DeadCode.cpp:73-94 | sweeping keeps single assignment form, and how loops are entered |
| CleanedForm.FormCleared | src/passes/DeadCode.cpp:21-36 | so does removing blocks without predecessors |
| Marking.LeastNeeded | src/passes/DeadCode.cpp:38-94 | if only the least closed set is left, everything in it is needed by a chain of uses |
| FunctionInfo.FuncInfo.Run | src/passes/FuncInfo.cpp:4-17 | a function is pure if and only if no chain of calls leads from it to a declaration, main, a function with a pointer parameter, or one that loads or stores at an address that is not computed from an alloca |
| FunctionInfo.FuncInfo.TrivialMark | src/passes/FuncInfo.cpp:26-49 | impure by itself: a declaration, main, one with a pointer parameter, or one with a load or store at an address that no chain of computations leads back from to an alloca |
| FunctionInfo.FuncInfo.Process | src/passes/FuncInfo.cpp:51-63 | all callers are marked, and those newly marked are put on the list |
| FunctionInfo.FirstAddrExact | src/passes/FuncInfo.cpp:95-111 | following bases and first pointers ends at an alloca exactly if the address is computed from one |
| FunctionInfo.AllFound | src/passes/FuncInfo.cpp:11-15 | when the list is empty every caller, at any distance, of an impure function has been found |
| Purity.QuietCall | src/passes/FuncInfo.cpp:26-94 | in a whole program whose element addresses stay in the frame of their array, whatever it calls and however deep, a call of a function found pure leaves the memory of everyone else as it was |
| Purity.PureIsTransparent | src/passes/FuncInfo.cpp:65-94 | so what loads and calls give does not depend on earlier calls of pure functions: what dead code elimination relies on |
| Purity.CleanedInProgram | src/passes/DeadCode.cpp:96-110 | in such a program a function without its dead code returns the same, and leaves the same memory |
| PureExample.FindSquare | src/passes/FuncInfo.cpp:4-17 | a function that stores to an array of its own and reads it back is found to be pure |
| PureExample.SquareReturns | src/passes/FuncInfo.cpp:4-17 | and rightly so: from any memory a call of it gives the square of its argument and leaves everything as it was |
| UseLists.Value.AddUse | src/lightir/Value.cpp:15-17 | one entry more at the end of one list |
| UseLists.Value.RemoveUse | src/lightir/Value.cpp:19-22 | every equal entry goes, and nothing else |
| UseLists.Value.SetOperand | src/lightir/User.cpp:5-14 | the entry of the old value goes, the new value gets one, and all lists still say exactly which operands hold which values |
| UseLists.Value.AddOperand | src/lightir/User.cpp:16-20 | the same for one operand more |
| UseLists.Value.RemoveAllOperands | src/lightir/User.cpp:22-29 | the user is in no use list any more, and all others are right |
| UseLists.Value.RemoveOperand | src/lightir/User.cpp:31-41 | the operands move up; the lists are right afterwards if and only if the next operand was a different value |
| UseLists.RemovedConsistent | src/lightir/User.cpp:31-41 | the same as a statement about all consistent states |
| UseLists.EqualNeighbours | src/lightir/User.cpp:31-41 | the input that fails: a user with one value as both operands; after the first is removed no list knows of the other |
| UseLists.Value.ReplaceAllUseWith | src/lightir/Value.cpp:24-31 | the loop ends, the old value has no uses left, every operand that held it holds the new one, and all lists are right |
| CodeGeneration.CodeGen.GenFunction | src/codegen/CodeGen.cpp:638-737 | the emitted text implements the function: called with arguments in registers, the machine comes, step by step with its program counter, wherever a safe run of the function comes, for any length; when the function returns, a0 has its value and sp, fp and ra are what they were. A run is safe if branch conditions, addresses, arguments, stored and returned values are defined, accesses stay outside the private part of the frame, and copies do not clash; whatever else is undefined may be computed and copied |
| CodeGeneration.CodeGen.Allocate | src/codegen/CodeGen.cpp:5-36 | every argument, result and alloca body has its place, one below the other in the order of the program; the frame size is the least multiple of 16 that covers them |
| CodeGeneration.CodeGen.LoadLargeInt32 | src/codegen/CodeGen.cpp:83-88 | any 32-bit constant ends up in the register, in instructions whose fields can be encoded |
| CodeGeneration.CodeGen.LoadLargeInt64 | src/codegen/CodeGen.cpp:90-100 | the same for any 64-bit constant |
| CodeGeneration.CodeGen.LoadToGreg | src/codegen/CodeGen.cpp:65-81 | the register gets the value of a constant, a global's address or a slot, of i1 only bit 0 |
| CodeGeneration.CodeGen.LoadFromStackToGreg | src/codegen/CodeGen.cpp:102-125 | the slot's value, also when its offset does not fit into 12 bits |
| CodeGeneration.CodeGen.StoreFromGreg | src/codegen/CodeGen.cpp:127-151 | the slot's value is the register's, and no other slot changes |
| CodeGeneration.CodeGen.GenBinary | src/codegen/CodeGen.cpp:273-293 | for operands that are defined, the slot holds their sum, difference or product wrapped at 32 bits, or their truncated quotient; in any case no other slot changes |
| CodeGeneration.CodeGen.GenIcmp | src/codegen/CodeGen.cpp:381-420 | for operands that are defined, the slot holds 1 if the first is less, not greater, and so on, than the second, and 0 if not, unless le or ge hits the largest int; in any case no other slot changes |
| CodeGeneration.CodeGen.GenZext | src/codegen/CodeGen.cpp:456-473 | 0 or 1, whatever the other bits of the i1 slot are |
| CodeGeneration.CodeGen.GenGep | src/codegen/CodeGen.cpp:532-577 | for operands that are defined, the slot holds base plus index times size, if that product is not negative and fits into 32 bits; in any case no other slot changes |
| CodeGeneration.CodeGen.GenLoad | src/codegen/CodeGen.cpp:336-355 | the slot holds what is in memory at the address, in the width of its type |
| CodeGeneration.CodeGen.GenStore | src/codegen/CodeGen.cpp:357-379 | the value is in memory at the address, and no other byte that programs can address and no slot has changed |
| CodeGeneration.CodeGen.GenAlloca | src/codegen/CodeGen.cpp:324-334 | the address of the body; the instruction can be encoded if and only if the offset has 12 bits |
| CodeGeneration.CodeGen.CopyStmt | src/codegen/CodeGen.cpp:38-63 | for every successor in order the copies of its phis for this block, and nothing for phis without a pair; a copy of a value that is not defined leaves the phi without one and changes nothing else |
| CodeGeneration.CodeGen.GenCall | src/codegen/CodeGen.cpp:475-518 | every argument gets into its register and none overwrites another; behind bl all values are still in their slots, the result is in its own, which is what the callee gives for the values of the arguments, and memory is as the callee declares, provided the callee keeps to the calling convention (`Fragments.CalleesObey`) |
| Arithmetic.QuotientExact | src/codegen/CodeGen.cpp:273-293 | division truncates: the remainder is smaller than the divisor and has the sign of the dividend |
| Fragments.CallAgrees | src/codegen/CodeGen.cpp:475-518 | the convention is enough: sp and fp given back, the private part of the frame untouched, result and public memory as declared |
| CodeGeneration.CodeGen.GenPrologue | src/codegen/CodeGen.cpp:191-215 | from the call on, slots and frame are set up, arguments are in their slots and ra and fp are saved, for every frame size |
| CodeGeneration.CodeGen.GenEpilogue | src/codegen/CodeGen.cpp:217-233 | sp, fp and ra are what they were before the call |
| CodeGeneration.CodeGen.GenRet | src/codegen/CodeGen.cpp:235-251 | the value in a0, then the epilogue |
| CodeGeneration.CodeGen.GenBr | src/codegen/CodeGen.cpp:253-271 | the branch goes where bit 0 of the condition says |
| EndToEnd.SourceOnMachine | src/cminusfc/main.cpp:53-88 | from the syntax to the machine, for what `Pipeline.CompileAndClean` and `MoveAndClean` ensure of their results (`Preserved`), in calls that are well-defined in the source and whose runs are safe: if the big-step evaluation of the declaration returns, the machine that runs the emitted text exits, with that value in a0, the memory and the visible calls of the evaluation, and sp, fp and ra restored |
| EndToEnd.MachineOnSource | src/cminusfc/main.cpp:53-88 | and only then: if the machine leaves the function, the evaluation of the declaration returns, and the machine has left as it does; so one ends exactly when the other does |
| EndToEnd.SeenOnMachine | src/cminusfc/main.cpp:53-88 | what the passes preserve for every meaning of the operations holds for that of the machine: comparisons are the usual ones, and loads and calls do not depend on what dead code elimination removes |
| EndToEnd.MachineTransparent | src/passes/DeadCode.cpp:96-110 | what loads find and calls return on the machine does not depend on events that dead code elimination may remove, if pure functions leave memory alone |
| Lowering.LoweredRuns | src/codegen/CodeGen.cpp:653-734 | every safe run of the typed function, calls included, is a run of the function of the passes, block by block, with the machine's arithmetic as the meaning of its operations |
| Lowering.TextRunsFunction | src/codegen/CodeGen.cpp:602-739 | in every safe run the emitted text comes wherever the function of the passes comes, and returns as it does, after the same calls with the same arguments |
| MachineRun.GeneratedRuns | src/codegen/CodeGen.cpp:602-739 | every safe run of the function is a run of the emitted text, with at least one machine step for each block, and the return gives the value and restores sp, fp and ra |
| MachineRun.GeneratedObeys | src/codegen/CodeGen.cpp:191-233 | generated code is such a callee itself: seen from a caller's frame it gives sp and fp back, and it leaves in memory what the function leaves, outside the room below that frame |
| EndToEnd.TypedCall | src/cminusfc/main.cpp:53-88 | the calls that these theorems are about exist: a well-typed function whose local variables are arrays can be called wherever its globals are |
| GcdExample.GcdOnMachine | src/cminusfc/main.cpp:53-88 | the whole way for one function: the compiled text of gcd leaves the greatest common divisor of its two positive arguments in a0 |
| GcdExample.CompileGcd | src/cminusfc/main.cpp:53-73 | builder, promotion and clean-up make a function of it for which that holds |
| TypedForm.FormExists | src/codegen/CodeGen.cpp:602-739 | every function of the passes whose operations have the operands that they need has a typed form |
| TypedForm.FormReady | src/codegen/CodeGen.cpp:602-739 | the generator takes that form, if what is used is computed, constants have 32 bits and calls have at most eight arguments |
| OneSidedExample.GenOneSided | src/codegen/CodeGen.cpp:602-739 | the generator takes the function of the next row, and the text that it emits returns 2 in every such call |
| OneSidedExample.OneSidedCalled | src/codegen/CodeGen.cpp:191-215 | there are such calls, whatever frame has been chosen |
| OneSidedExample.OneSidedReturns | src/codegen/CodeGen.cpp:38-63 | a variable that is set on some ways only: its unset phi is copied in front of the second join, and yet the run is safe and gives the right result |
| MachineRun.EdgeAgrees | src/codegen/CodeGen.cpp:38-63 | the copies for both successors are done before the branch: the phis of the taken edge are right, those of the other one are overwritten |
| PhiCopies.CopiesExact | src/codegen/CodeGen.cpp:38-63 | copies one after the other are the parallel assignment, for all values and also where some are not defined, if and only if no copy reads a phi that an earlier one has overwritten |
| PhiCopies.SwapClashes | src/codegen/CodeGen.cpp:38-63 | the input that fails: two phis that swap their values |
| LowIr.CompareExact | src/codegen/CodeGen.cpp:381-420 | bit 0 of the result is the comparison if and only if the right operand of le, the left operand of ge, is not the largest int |
| LowIr.LeAtLargest | src/codegen/CodeGen.cpp:403-407 | the input that fails: anything compared by le with the largest int gives 0 |
| LowIr.EqValue | src/codegen/CodeGen.cpp:390-394 | eq leaves -1 or -2: only bit 0 means anything |
| LowIr.OffsetExact | src/codegen/CodeGen.cpp:552-573 | the computed address is the element's if and only if index times size is not negative and fits into 32 bits |
| LowIr.OffsetOfBillion | src/codegen/CodeGen.cpp:562-573 | an input that fails behind the check of the index: index 1073741824 of an array of ints gives the address of the array |
| LowIr.OffsetOfMinusOne | src/codegen/CodeGen.cpp:562-573 | another: the element in front of the base, which gets here only if code motion has moved the address in front of its check |
| Fragments.AllocaTooFar | src/codegen/CodeGen.cpp:331-333 | the input that fails: an array of 600 ints, wherever its slot is |
| Fragments.SimulatesAlloca | src/codegen/CodeGen.cpp:324-334 | the code of an alloca gives the address of its body |
| Allocation.ItemsApart | src/codegen/CodeGen.cpp:5-36 | slots and bodies do not overlap, lie below the saved pair and inside the frame |
| Allocation.BodyPublic | src/codegen/CodeGen.cpp:26-30 | an alloca's body is disjoint from all slots and from the saved pair |

## Left out

- Floating point everywhere: values of the intermediate representation are integers, `float` variables, casts and float instructions are not modelled.
- Called functions are part of the machine's surroundings: each is taken to return and to keep to the calling convention (`Fragments.CalleesObey`); generated code does (`MachineRun.GeneratedObeys`), but no theorem links the texts of several functions. Calls and functions with more than eight arguments are left out.
- Assembler directives, labels of globals and printing; a label is a number and a global is known by its address.
- Lexer, parser, syntax tree construction and the printing of syntax and intermediate code.
- Module level: functions are compiled one at a time, and dead code elimination and loop detection run on one function; a second function adds nothing but a loop around them. Whole programs appear in `Purity.dfy` only.
- Global declarations create a binding to an address; initial values and storage are not modelled.
- CminusBuilder.CminusfBuilder.VisitFunDeclaration: for declarations whose names are known, whose indexed names are arrays and whose values are integers (`FunctionTyped`); the source stops at an assertion or builds ill-typed code otherwise.
- Evaluation.NeverWrong: local integer variables are left out, since whether they are set before they are read depends on the run; a call that reads one before is one that goes wrong.
- Division by zero and of the smallest int by -1: division is some function of its operands in `Ir.dfy`.
- Pointer types in the intermediate representation: an address is an integer, and what loads and calls give is some function of the events before them.
- LoopMotion.LoopInvariantCodeMotion.Run: for loops that read no stack slot (`RegisterLoops`); after promotion such reads are those of variables that no store reaches. Loads and calls that are moved are taken to end and not to fail, also where the loop would not have run them.
- LoopMotion.LoopInvariantCodeMotion.FindInvariants: without the sets of updated globals and of impure calls (src/passes/LICM.cpp:62-75). The second is never read; the first is asked only after loads of globals have been taken, and nothing but loads and stores uses a global that is stored to directly.
- LoopMotion.LoopInvariantCodeMotion.LoopVariables: lists the identities of stores through pointers too; in the source a store is no value, so nothing uses them.
- The preheader that code motion creates for a loop with nothing to move (src/passes/LICM.cpp:182-188) has no instruction, predecessor or successor and is not part of the function model.
- Purity.QuietCall: element addresses are taken to stay in the frame of their array (`FramesOk`): where one does not, a store through it may reach anything.
- Purity.CleanedInProgram: the same, and a call that is not finished within its fuel gives 0.
- Purity.PureIsTransparent: element addresses are taken to stay in the frame of their array (`FramesOk`); a call that is not finished within its fuel gives 0.
- CodeGeneration.CodeGen.GenFunction: for runs without the failures listed above (`RunSafe`): branch conditions, addresses, arguments, stored and returned values are defined, phi copies do not clash, and accesses stay outside the private part of the frame.
- MachineRun.GeneratedRuns: for the same runs.
- EndToEnd.SourceOnMachine: for the same runs; the typed function is any that is the same instruction by instruction (`Lowering.Lowered`); there is one whenever operations have the operands that they need (`TypedForm.FormExists`), and that its operands have the types that instructions ask for is part of what makes a run safe.
- `replace_use_with_if`, `DeadCode::sweep_globally` and the constant and type tables: they would only add easy members.
- Memory ownership, list internals and parent pointers: blocks, instructions and values are known by identity.

# A verified model of the v12 bytecode back end

The v12 compiler turns JavaScript into register bytecode.  This project models the back
end of that compiler in Dafny, from the storage layout of a unit to the validated code
object, together with the machine that gives the bytecode its meaning, and proves what
the passes promise one another.

* **Machine** (`Words`, `Machine`): instruction words, the operand table, wide operations
  and register prefixes, exception delivery, and runs.  Whatever an instruction asks of
  the world outside its frame goes to a `Host`, a function of the request and of the whole
  history of requests; the history is the observable trace.  All theorems hold for every
  host.
* **Source** (`Source`, `Chains`, `Switches`): the evaluator the bytecode is compared with, for
  literals, locals, operators, `&&` `||` `??`, `?:`, comma, assignment, optional chains
  with calls, `if`, `while`, `do`, `for`, `for-of`, `switch`, labels, `break`, `continue`,
  `return` and `throw`, arbitrarily nested.
* **Lowering** (`Builder`, `Lowering`, `Emitter`): the backpatching builder, the lowering
  as functions, and the lowering in the source's own form, a context object that appends,
  allocates and binds as it walks the tree, proved equal to the functions; `Demand` says,
  from the source tree alone, which units lower.
* **Compiler correctness** (`Growth`, `Steps`, `ExprCorrect`, `StmtFrame`, `ForOfFrame`,
  `ForOfHead`, `StmtCorrect`, `Compile`, `Iterators`, `Resolution`): the assembled code does
  what the evaluator says, in both directions, and closes iterators by the protocol; jumps
  resolve as ECMA-262 says, exactly when.
* **Peephole pass** (`Simulation`, `PeepholeSpec`, `Peephole`, `PeepholeLayout`,
  `PeepholeSafe`, `PeepholeThread`, `PeepholeCompact`, `PeepholeFold`, `PeepholeKeeps`,
  `PeepholeCorrect`): the pass with its buffers and in-place loops, and the simulations
  that show it preserves meaning both ways; `PeepholePrefix` and `PeepholeLimits` say
  exactly when its silent assumptions hold, and what happens when they do not.
* **Emitted code** (`Listing`, `ListingSteps`, `ListedExprs`, `ListedStmts`, `ListedCode`):
  the shape of everything the lowering emits, as a list of operations.  It yields what the
  pass relies on and what the validator asks for.
* **Pipeline** (`Validator`, `Verdict`, `PeepholeAccepts`, `PeepholeSimple`, `Pipeline`):
  lowering, assembly, optimization and validation put together.
* **Units** (`EnvDepth`, `EnvBalance`, `Tdz`, `StorageLayout`): environment depths,
  environment balance, dead-zone guards and storage layout.

`dafny verify dfyconfig.toml` checks everything.

## Main theorems

1. `Compile.CompileCorrect` and `Compile.CompileExact`: a unit's code ends exactly when
   the source program does, with the same result, the same requests in the same order and
   the same locals.  `Demand.UnitLowers`: a unit lowers if and only if every jump has a
   target, no switch has two defaults, and its registers and constants are within the
   limits.
2. `Iterators.ClosedAtMostOnce`: in every reachable state of every compiled program no
   iterator was closed twice, whatever the closes themselves throw; `Iterators.ForOfEnds`
   says when it is closed exactly once and when never.
3. `PeepholeCorrect.OptimizeCorrect`: up to eight rounds of the pass preserve results,
   traces, divergence and all registers but the folded temporaries; `RoundStable` says the
   pass leaves behind what it relies on.
4. `ListedCode.UnitStable` and `ListedCode.UnitAccepted`: the code of every well-formed
   unit has the shape and the discipline the pass relies on, payload words that read as
   branches aside, and the validator accepts it with the unit's own register budget.
5. `Validator.ValidatorSound`: acceptance is safety of every run; `Verdict.AcceptsExact`:
   and acceptance is exactly that every instruction decodes and stays inside the frame, the
   pool, the code and the environments around it.
6. `Pipeline.PipelineCorrect`, `Pipeline.PipelineAccepted` and `Pipeline.PipelineSafe`: the
   optimized code of every well-formed unit does what the source says, is accepted and is
   safe, down to the windows of its calls, provided the pass does the unit no harm: no
   payload word reads as a branch, and no round folds a negative zero or deletes a branch
   behind a register prefix.  `Pipeline.SimpleHarmless` rules the harm out from the
   unoptimized code alone.
7. `EnvDepth.DepthExact`: every statically counted depth lands on the environment it
   names, for every nesting of closures and class scopes; `EnvDepth.AccessesExact`: and
   the accesses are those of the program, in order.
8. `EnvBalance.Balanced` and `EnvBalance.EmitExact`: the environments a frame has pushed
   are at every instruction those of the loops around it.
9. `Tdz.ElisionSound` and `Tdz.GuardsExact`: code throws at exactly the references where
   the program does, and a guard is left out exactly behind a straight-line declaration.
10. `StorageLayout.LayOut` and `StorageLayout.Finalize`: every binding is where it belongs,
    and every reference finds it.

## Where the code departs from what it should do

The model follows the code.  Where a departure has a lemma that shows it and an exact
condition under which it does not happen, both are named.

* `return (0 - 1) * 0` returns the negative zero, and its optimized code the positive one
  (`PeepholeLimits.SignLostReturns`): two rounds fold it.  A fold is exact if and only if
  it is not a zero product with a negative factor (`PeepholeFold.FoldExact`).
* A round treats payload words that happen to read as branches as branches: compaction
  remaps them (`PeepholeLimits.LiteralChanged`) and threading redirects them
  (`PeepholeLimits.LiteralThreaded`).  Such a word survives a round if and only if the
  chase from it on the threaded text ends where it began, which without a hop means that
  nothing in front of its supposed target is deleted (`PeepholeLimits.PayloadIntact`).
* Deleting a branch behind a register prefix leaves the prefix to the next instruction
  (`PeepholeLimits.PrefixDangles`), and the validator then refuses what is left of
  `if (x) {}` on a local in register 301 (`PeepholeLimits.EmptyIfLost`).  Compaction keeps
  every instruction if and only if no deleted branch stands behind a prefix
  (`PeepholePrefix.CompactionExact`); which ones it loses is local
  (`PeepholePrefix.PrefixExact`).
* An unlabelled `break` or `continue` never takes a loop or switch that carries a label,
  and a loop under several labels answers to the innermost alone.  A jump resolves as
  ECMA-262 says if and only if its target keeps its meaning under these rules
  (`Resolution.ResolvesRight`), and a unit whose every jump does runs as the evaluator says
  (`Resolution.HonouredExact`).  `a: while (true) { break; }` is rejected
  (`Resolution.NamedLoopRejected`), `a: b: while (true) { continue a; }` as well
  (`Resolution.OuterLabelRejected`); `while (true) { b: while (true) { break; } }` compiles,
  and its code returns at once (`Resolution.SilentlyRetargeted`).
* A `for-of` whose `next`, `done` or `value` throws closes the iterator, which the
  standard does not (`Iterators.RaisingNextCloses`); the evaluator follows the code, and it
  is the standard's loop if and only if no round's head raises an error
  (`Iterators.StandardUnlessRaised`).
* The window check for array literals asks for one register more than the window has
  (`Validator.ArrayRejected`): with every register in range an array literal is rejected if
  and only if its window ends where the frame does (`Validator.ArrayWindow`).

## Model

| member | source | states |
|---|---|---|
| Machine.FindHandler | crates/test-support/src/mini.rs:491-499 | the handler found covers the pc and no covering handler starts later; none is found exactly when none covers |
| Machine.ConvergesOrDiverges | crates/test-support/src/mini.rs:86-107 | every run ends or goes on forever, never both, and ends in one way only |
| Machine.FalsyValues | crates/test-support/src/mini.rs:514-522 | the seven values that are not truthy |
| Machine.StrictEqLaws | crates/test-support/src/mini.rs:571-580 | symmetric, transitive, reflexive except at NaN; the zeros are equal, and no other two values are |
| Machine.LooseEqLaws | crates/v12-interp/src/ops.rs:389-420 | symmetric, strict on values of one kind; null and undefined equal each other and nothing else; the rest is left to conversion |
| Builder.FunctionBuilder.NewLabel | crates/v12-bytecode/src/builder.rs:70-73 | a fresh unbound label, nothing else changed |
| Builder.FunctionBuilder.Bind | crates/v12-bytecode/src/builder.rs:79-83 | the label is bound to the next instruction, other labels kept |
| Builder.FunctionBuilder.EmitSpanned | crates/v12-bytecode/src/builder.rs:96-99 | one word and one span appended |
| Builder.FunctionBuilder.EmitJump | crates/v12-bytecode/src/builder.rs:113-136 | a placeholder and its fixup appended, span aligned |
| Builder.FunctionBuilder.AddConst | crates/v12-bytecode/src/builder.rs:102-104 | the first index of an equal constant, a new last one, or an error exactly when the pool is full |
| Builder.FunctionBuilder.Finish | crates/v12-bytecode/src/builder.rs:143-163 | every branch targets the place its label was bound to and keeps opcode and register, all other words are unchanged, spans stay aligned |
| Steps.DecodeEncoded | crates/v12-bccompiler/src/model.rs:1327-1356 | decoding the words of a register instruction returns its operands, prefixed or not |
| Steps.DecodeAllEncoded | crates/v12-bytecode/src/validate.rs:130-202 | the same for sequences of any length, prefixed and plain instructions mixed |
| Emitter.FnCtx.NewTemps | crates/v12-bccompiler/src/model.rs:928-944 | the n registers from the current top on, above the reserved one; all of them enter the record the register budget is checked against, or the overflow is reported |
| Emitter.FnCtx.NewTemp | crates/v12-bccompiler/src/model.rs:910-925 | the register at the current top, recorded as well, or the overflow |
| Emitter.FnCtx.TempMark | crates/v12-bccompiler/src/model.rs:946-948 | a mark above the reserved register |
| Emitter.FnCtx.TempRelease | crates/v12-bccompiler/src/model.rs:950-952 | the top never moves up, the high-water mark and everything handed out stay accounted for |
| Emitter.FnCtx.EmitRegs | crates/v12-bccompiler/src/model.rs:1327-1356 | appends the encoding whose round trip is proved |
| Emitter.FnCtx.LoadConst | crates/v12-bccompiler/src/model.rs:1579-1588 | pools the constant and loads it; fails exactly when the constant is new and the pool is full |
| Emitter.FnCtx.LoadInt | crates/v12-bccompiler/src/model.rs:1614-1624 | the narrow or wide load of that integer |
| Emitter.FnCtx.LoadBool | crates/v12-bccompiler/src/model.rs:1642-1647 | a scratch zero compared with itself |
| Emitter.FnCtx.LoadUndefined | crates/v12-bccompiler/src/model.rs:1635-1638 | copies the reserved register |
| Emitter.FnCtx.EmitCall | crates/v12-bccompiler/src/model.rs:1824-1845 | narrow call, or the wide form past 255 arguments |
| Emitter.FnCtx.EmitJump | crates/v12-bccompiler/src/model.rs:1551-1569 | a branch, with a prefix for a condition register past 255 |
| Emitter.FnCtx.Expr | crates/v12-bccompiler/src/expr.rs:150-187 | emits what the lowering function says, which `ExprOk` proves correct |
| Emitter.FnCtx.Logical | crates/v12-bccompiler/src/expr.rs:1095-1124 | the same for logical expressions |
| Emitter.FnCtx.Conditional | crates/v12-bccompiler/src/expr.rs:171-185 | the same for conditional expressions |
| Emitter.FnCtx.ChainExpr | crates/v12-bccompiler/src/expr.rs:1808-1881 | the same for optional chains |
| Emitter.FnCtx.NullishExit | crates/v12-bccompiler/src/expr.rs:1676-1684 | the same for the guard of an optional link |
| Emitter.FnCtx.ChainLinks | crates/v12-bccompiler/src/expr.rs:1814-1877 | the same for the links of a chain |
| Emitter.FnCtx.EmitCloses | crates/v12-bccompiler/src/model.rs:1476-1492 | one guarded close per iterator being left, innermost first |
| Emitter.FnCtx.Resolve | crates/v12-bccompiler/src/stmt.rs:1594-1604 | the innermost entry the jump resolves to |
| Emitter.FnCtx.JumpOut | crates/v12-bccompiler/src/stmt.rs:1585-1641 | closes, then the jump to the resolved label |
| Emitter.FnCtx.Stmt | crates/v12-bccompiler/src/stmt.rs:87-170 | emits what the lowering function says, which `StmtOk` proves correct |
| Emitter.FnCtx.WithLoop | crates/v12-bccompiler/src/model.rs:1380-1408 | the body under one more loop entry, which is removed again |
| Emitter.FnCtx.IfStmt | crates/v12-bccompiler/src/stmt.rs:114-130 | the lowering of `if` |
| Emitter.FnCtx.Loop | crates/v12-bccompiler/src/stmt.rs:879-897 | the lowering of `while` and of `for` past its initializer |
| Emitter.FnCtx.DoWhileLoop | crates/v12-bccompiler/src/stmt.rs:899-916 | the lowering of `do-while` |
| Emitter.FnCtx.LabeledStmt | crates/v12-bccompiler/src/stmt.rs:1473-1506 | the lowering of a labelled block |
| Emitter.FnCtx.ForOfSetup | crates/v12-bccompiler/src/stmt.rs:918-960 | iterator, result, guard and delivery registers in this order |
| Emitter.FnCtx.ForOfHead | crates/v12-bccompiler/src/stmt.rs:938-1030 | advance, test `done`, read `value`, bind |
| Emitter.FnCtx.ForOfLoop | crates/v12-bccompiler/src/stmt.rs:918-1075 | the whole lowering of `for-of` |
| Emitter.FnCtx.ForOfCatch | crates/v12-bccompiler/src/stmt.rs:1049-1075 | the handler that closes unless the guard is armed, then rethrows, and its range |
| Emitter.FnCtx.SwitchStmt | crates/v12-bccompiler/src/stmt.rs:1508-1581 | the lowering of `switch` |
| Emitter.FnCtx.Finish | crates/v12-bccompiler/src/model.rs:1981-2002 | the assembled code with sorted handlers, and a register budget above every temporary ever taken, the high-water mark and every delivery register |
| Emitter.CompileFunction | crates/v12-bccompiler/src/unit.rs:289-300 | the code the correctness theorem is about; there is one exactly when the unit's demand for registers, constants and jump targets is met and the code fits the 16-bit window; the validator accepts the code of a well-formed unit with the returned budget, so every register it names is below it |
| Demand.UnitLowers | crates/v12-bccompiler/src/stmt.rs:1508-1641 | a unit lowers if and only if every jump has a target, no switch has two defaults, its temporaries fit the registers behind its locals and its distinct constants the pool |
| Demand.MeetsConst | crates/v12-bytecode/src/lib.rs:125-136 | a constant demands a place in the pool only if it is not there yet |
| Demand.ClosedLeft | crates/v12-bccompiler/src/stmt.rs:1594-1627 | a jump has a target exactly when the lowering resolves it, and closes the iterators of the entries it leaves |
| ExprCorrect.ExprOk | crates/v12-bccompiler/src/expr.rs:38-187 | the code of any expression computes the evaluator's value, requests, locals and throws, and leaves every earlier temporary alone |
| ExprCorrect.BinaryOk | crates/v12-bccompiler/src/expr.rs:1057-1093 | the same for binary operators |
| ExprCorrect.LogicOk | crates/v12-bccompiler/src/expr.rs:1095-1124 | the same for `&&`, `\|\|` and `??` |
| ExprCorrect.CondOk | crates/v12-bccompiler/src/expr.rs:171-185 | the same for `?:` |
| ExprCorrect.AssignOk | crates/v12-bccompiler/src/expr.rs:1197-1240 | the same for plain assignment to a local |
| ExprCorrect.ChainOk | crates/v12-bccompiler/src/expr.rs:1808-1881 | the same for optional chains: the result register is written on every completed path |
| ExprCorrect.ExitOk | crates/v12-bccompiler/src/expr.rs:1651-1684 | an optional link leaves the chain exactly on a nullish value |
| ExprCorrect.InvokeOk | crates/v12-bccompiler/src/expr.rs:1840-1873 | a call link calls with the right receiver and arguments |
| Chains.ChainMeaning | crates/v12-bccompiler/src/expr.rs:1686-1698 | a chain is the plain chain, or exactly the part in front of the first nullish `?.`, yielding undefined |
| Switches.SelectedIsCaseBlock | crates/v12-bccompiler/src/stmt.rs:1508-1581 | selecting a clause and running from there is CaseBlockEvaluation, for any clause list with at most one default in any position |
| StmtCorrect.StmtOk | crates/v12-bccompiler/src/stmt.rs:87-170 | the code of any statement reaches the evaluator's completion: falling through, raising, or standing at the exit stub of the right jump |
| StmtCorrect.IfOk | crates/v12-bccompiler/src/stmt.rs:114-130 | the same for `if` |
| StmtCorrect.ForLoopOk | crates/v12-bccompiler/src/stmt.rs:1404-1471 | the same for `while` and `for` |
| StmtCorrect.DoWhileOk | crates/v12-bccompiler/src/stmt.rs:899-916 | the same for `do-while` |
| StmtCorrect.LabeledOk | crates/v12-bccompiler/src/stmt.rs:1473-1506 | the same for labelled statements |
| StmtCorrect.JumpOutOk | crates/v12-bccompiler/src/stmt.rs:1585-1641 | break and continue stand at the stub of the resolved entry |
| StmtCorrect.ReturnOk | crates/v12-bccompiler/src/stmt.rs:139-165 | return stands at the stub that closes every loop |
| StmtCorrect.SwitchOk | crates/v12-bccompiler/src/stmt.rs:1508-1581 | tests run in order to the first strict match, bodies from the selected clause with fallthrough |
| StmtCorrect.ForOfOk | crates/v12-bccompiler/src/stmt.rs:918-1075 | the same for `for-of`, closes included |
| ForOfFrame.OwnHandler | crates/v12-bccompiler/src/stmt.rs:1051-1074 | an error the body's own loops do not catch reaches this loop's handler, in the sorted table |
| ForOfFrame.ArmedEscape | crates/v12-bccompiler/src/model.rs:1480-1491 | an error of a close on the way out escapes the loop without a second close |
| ForOfFrame.Unarmed | crates/v12-bccompiler/src/stmt.rs:1059-1072 | on the throw path the iterator is closed once, and the error that was caught goes on whatever comes of the close |
| ForOfFrame.LeftOk | crates/v12-bccompiler/src/model.rs:1476-1492 | leaving by break, continue or return closes once, and an error of the close replaces the completion |
| Growth.GrowStmt | crates/v12-bccompiler/src/stmt.rs:87-170 | emission never changes earlier words, binds every label it creates once and inside its own region, and keeps handlers inside it |
| Compile.CompileCorrect | crates/v12-bccompiler/src/stmt.rs:39-60 | a result within the fuel is the machine's result, with trace and locals; without one the machine is still running with the same trace |
| Compile.CompileExact | crates/test-support/src/mini.rs:86-300 | the machine ends only as the source program does, and runs forever exactly when no fuel suffices |
| Iterators.ForOfEnds | crates/v12-bccompiler/src/stmt.rs:938-1075 | a loop ends exhausted and unclosed, or closed by its very last request, once: a throw stands whatever comes of the close, any other completion yields to an error of it |
| Iterators.StandardUnlessRaised | crates/v12-bccompiler/src/stmt.rs:938-1075 | the loop is the standard's loop, on every host, if and only if no round's `next`, `done` or `value` throws |
| Iterators.RaisingNextCloses | crates/v12-bccompiler/src/stmt.rs:1049-1075 | a `next` that throws: the trace ends in a close, the standard's does not |
| Iterators.AllCovered | crates/v12-bccompiler/src/model.rs:1470-1492 | a program never closes an iterator more often than it obtained it |
| Iterators.ClosedAtMostOnce | crates/v12-bccompiler/src/stmt.rs:938-1075 | in every reachable machine state no iterator was closed twice |
| Resolution.TargetTaken | crates/v12-bccompiler/src/stmt.rs:1607-1641 | a jump fails exactly when it has no target, and otherwise closes what it leaves and goes to its target's label |
| Resolution.ResolvesRight | crates/v12-bccompiler/src/stmt.rs:1594-1604 | a jump resolves as the standard says, with label sets, if and only if the standard has no target for it or the target keeps its meaning: unlabelled for an unlabelled jump, innermost label for a labelled continue |
| Resolution.HonouredExact | crates/v12-bccompiler/src/stmt.rs:1585-1641 | a unit that lowers and whose every jump has a target that keeps its meaning ends exactly as the evaluator says |
| Resolution.NamedLoopRejected | crates/v12-bccompiler/src/stmt.rs:1594-1607 | a valid program that is rejected: an unlabelled break in a labelled loop |
| Resolution.OuterLabelRejected | crates/v12-bccompiler/src/stmt.rs:1473-1498 | a valid program that is rejected: a continue that names the outer of two labels |
| Resolution.SilentlyRetargeted | crates/v12-bccompiler/src/stmt.rs:1585-1641 | a program that never ends and compiles to code that returns at once |
| Pipeline.PipelineCorrect | crates/v12-bccompiler/src/model.rs:1981-2007 | optimized code of a unit the pass does not harm ends exactly as the source program does |
| Pipeline.PipelineAccepted | crates/v12-bccompiler/src/model.rs:1996-2007 | the validator accepts that code with the budget the emitter computed |
| Pipeline.PipelineSafe | crates/v12-bccompiler/src/model.rs:1996-2007 | and every run of it is safe: boundaries, operands, constants, and every register read, the header and argument windows of calls included |
| Pipeline.SimpleHarmless | crates/v12-bccompiler/src/peephole.rs:23-29 | the pass does no harm to a unit of at most 256 registers that does not multiply and has no payload that reads as a branch |
| Pipeline.FinishFunction | crates/v12-bccompiler/src/model.rs:1981-2007 | lowering, assembly, optimization and validation: what comes out is the optimized code, accepted; something comes out of every well-formed unit that lowers and is not harmed |
| ListedExprs.ListExpr | crates/v12-bccompiler/src/expr.rs:38-187 | the code of any expression touches locals and its own temporaries only; the operands of its foldable arithmetic are read once, with no jump or handler landing between them and it, and its result is not among them |
| ListedStmts.ListUnit | crates/v12-bccompiler/src/stmt.rs:39-60 | the same for a whole unit, closes, loops, switches and handlers included |
| ListedCode.DisciplinedHolds | crates/v12-bccompiler/src/peephole.rs:4-8 | the safety invariant of folding: the operands of a foldable triple are read by it alone, and control enters only in front of it |
| ListedCode.UnitStable | crates/v12-bccompiler/src/peephole.rs:4-17 | the code of every well-formed unit meets everything the pass relies on, payload aside |
| ListedCode.UnitAccepted | crates/v12-bytecode/src/validate.rs:125-301 | the validator accepts the code of every well-formed unit with the unit's own high-water mark |
| ListedCode.UnitContained | crates/v12-bccompiler/src/model.rs:1989-1998 | the high-water mark is above every register any instruction of the unit reads, the windows of calls included |
| PeepholeAccepts.ContainedOptimized | crates/v12-bccompiler/src/peephole.rs:23-29 | the pass makes no instruction read outside the frame |
| PeepholeAccepts.AcceptsOptimized | crates/v12-bccompiler/src/peephole.rs:23-29 | the pass keeps the validator's verdict |
| PeepholeSimple.SimpleRounds | crates/v12-bccompiler/src/peephole.rs:23-29 | without multiplications and prefixes every round is clean |
| Peephole.Layout | crates/v12-bccompiler/src/peephole.rs:38-47 | header words get their width, payload words zero |
| Peephole.FoldPass | crates/v12-bccompiler/src/peephole.rs:52-107 | exactly the leftmost non-overlapping literal triples are rewritten and marked |
| Peephole.DeadPass | crates/v12-bccompiler/src/peephole.rs:109-134 | exactly the branches to the next header are marked as well |
| Peephole.PayloadPass | crates/v12-bccompiler/src/peephole.rs:136-149 | payload words share the fate of their header |
| Peephole.Collect | crates/v12-bccompiler/src/peephole.rs:151-164 | kept words and spans in order, and the index map |
| Peephole.RemapWords | crates/v12-bccompiler/src/peephole.rs:166-183 | every kept word with its target mapped |
| Peephole.RemapHandlers | crates/v12-bccompiler/src/peephole.rs:185-192 | mapped ranges, emptied ones dropped |
| Peephole.ThreadPass | crates/v12-bccompiler/src/peephole.rs:199-236 | every branch threaded in place, in order, through at most sixteen jumps |
| Peephole.FunctionBytecode.Round | crates/v12-bccompiler/src/peephole.rs:32-239 | the code after one round, aligned spans, and whether anything changed |
| Peephole.FunctionBytecode.Optimize | crates/v12-bccompiler/src/peephole.rs:23-29 | rounds until nothing changes, at most eight |
| PeepholeCompact.DispatchPreserved | crates/v12-bccompiler/src/peephole.rs:185-192 | at every kept word the handler found after compaction is the image of the one found before, even where starts collapse and ranges vanish |
| PeepholeFold.FoldsWhen | crates/v12-bccompiler/src/peephole.rs:57-93 | a triple is folded exactly when the machine's arithmetic on the two loaded registers gives a literal or the negative zero, subtraction in order only |
| PeepholeFold.FoldExact | crates/v12-bccompiler/src/peephole.rs:76-93 | a fold equals the machine's arithmetic if and only if it is not a negative zero |
| PeepholeFold.CompactAlike | crates/v12-bccompiler/src/peephole.rs:52-196 | folding, deleting and compacting preserve results, traces and divergence both ways |
| PeepholeThread.ThreadedForward | crates/v12-bccompiler/src/peephole.rs:199-236 | threading in place only moves targets along chains of original jumps |
| PeepholeThread.ThreadSimulates | crates/v12-bccompiler/src/peephole.rs:199-236 | threading preserves meaning; cyclic chains stay cyclic |
| PeepholeCorrect.RoundAlike | crates/v12-bccompiler/src/peephole.rs:32-239 | one round preserves meaning in both directions |
| PeepholeCorrect.RoundStable | crates/v12-bccompiler/src/peephole.rs:4-17 | what the pass relies on holds again after the round |
| PeepholeCorrect.OptimizeCorrect | crates/v12-bccompiler/src/peephole.rs:23-29 | the whole pass preserves meaning in both directions |
| PeepholeLimits.SignLostReturns | crates/v12-bccompiler/src/peephole.rs:86-93 | a unit that returns the negative zero, and whose optimized code returns the positive one |
| PeepholeLimits.PayloadIntact | crates/v12-bccompiler/src/peephole.rs:166-236 | a word that is kept survives a whole round, compaction and threading, if and only if it does not read as a branch or is left alone by the chase |
| PeepholeLimits.LiteralChanged | crates/v12-bccompiler/src/peephole.rs:166-183 | a literal that compaction changes |
| PeepholeLimits.LiteralThreaded | crates/v12-bccompiler/src/peephole.rs:199-236 | a literal that threading changes, nothing being deleted |
| PeepholeLimits.PrefixDangles | crates/v12-bccompiler/src/peephole.rs:123-128 | a deleted branch whose prefix widens the next instruction |
| PeepholeLimits.EmptyIfLost | crates/v12-bccompiler/src/peephole.rs:109-149 | a unit whose optimized code no budget makes acceptable |
| PeepholePrefix.BoundaryExact | crates/v12-bccompiler/src/peephole.rs:136-183 | a kept instruction still starts one if and only if it is not a word taken over by a prefix left hanging |
| PeepholePrefix.PrefixExact | crates/v12-bccompiler/src/peephole.rs:109-134 | the one-word instruction behind a deleted branch, its neighbours kept, decodes as before if and only if the branch stands behind no prefix |
| PeepholePrefix.CompactionExact | crates/v12-bccompiler/src/peephole.rs:109-183 | every kept instruction decodes as before at its new place if and only if no deleted branch stands behind a prefix |
| Validator.CheckNarrow | crates/v12-bytecode/src/validate.rs:203-290 | no error exactly when registers, windows, flags, constant id, target and environment slot are in range |
| Validator.CheckWide | crates/v12-bytecode/src/validate.rs:303-345 | the same for wide operations |
| Validator.CheckOperandContract | crates/v12-bytecode/src/validate.rs:125-301 | accepts exactly the code whose every instruction passes |
| Verdict.VerdictExact | crates/v12-bytecode/src/validate.rs:203-345 | an instruction passes if and only if everything it touches is there: registers, windows, constant, target, flags, and the slot of the environment reached by walking up a linked chain of the environments pushed so far, inherited ones excepted |
| Verdict.AcceptsExact | crates/v12-bytecode/src/validate.rs:125-301 | code is accepted if and only if every instruction on the walk decodes and is in bounds |
| Validator.ValidatorSound | crates/v12-bytecode/src/validate.rs:18-30 | at every reachable state the pc is a boundary; every register operand of the next instruction, calls included, and every register it touches is in range, the window behind the base of a call aside; its constants are in range, nothing outside the frame was written, and the machine is not stuck |
| Validator.ArrayWindow | crates/v12-bytecode/src/validate.rs:401-422 | with its registers in range an array literal reads inside the frame if and only if its window ends at the frame's end or before, and passes the check if and only if it ends before |
| Validator.ArrayRejected | crates/v12-bytecode/src/validate.rs:411-421 | an array literal that is rejected though every register it reads is in range |
| EnvDepth.EnvDepthBetween | crates/v12-bccompiler/src/model.rs:543-556 | the structural hop count, zero for a unit that is no ancestor, or an error past the limit |
| EnvDepth.SuperEnvDepthBetween | crates/v12-bccompiler/src/model.rs:570-591 | the hop count to the scope of the nearest `super` user |
| EnvDepth.ClassScopeDepth | crates/v12-bccompiler/src/class.rs:83-102 | the hop count to a class scope, or an error past the limit |
| EnvDepth.HopsWalk | crates/v12-bccompiler/src/model.rs:515-556 | biased structural hops lead to the home unit's own environment |
| EnvDepth.ScopeWalk | crates/v12-bccompiler/src/class.rs:83-102 | the class scope depth leads to that scope, and the subtraction never saturates |
| EnvDepth.SuperWalk | crates/v12-bccompiler/src/model.rs:570-591 | the `super` depth leads to the chain the owner was created under, through any mix of arrows and scopes |
| EnvDepth.DepthExact | crates/v12-bccompiler/src/unit.rs:110-117 | every emitted access in every activation of every closure lands on its environment, and every construct restores the chain |
| EnvDepth.AccessesExact | crates/v12-bccompiler/src/model.rs:982-998 | the accesses, closures and scopes emitted, with the closures around them, are exactly those listed from the program in order |
| EnvDepth.Compiler.CompileUnit | crates/v12-bccompiler/src/unit.rs:86-117 | records the creation bias, restarts the count for the body and restores it; overflow is reported only when some chain of environments is higher than the limit |
| EnvDepth.Compiler.EmitOne | crates/v12-bccompiler/src/model.rs:1903-1947 | one access per use, with the biased depth of the theorem; no overflow while chains are within the limit |
| EnvDepth.Compiler.EmitClass | crates/v12-bccompiler/src/class.rs:213-341 | the scope is pushed first, registered after the heritage, and both are undone |
| EnvBalance.JumpOutGood | crates/v12-bccompiler/src/stmt.rs:1628-1641 | a jump out reaches its label at the label's depth, from any distance |
| EnvBalance.JumpTarget | crates/v12-bccompiler/src/stmt.rs:1628-1641 | and goes where the lowering's jump goes, to the continue point or behind the resolved statement |
| EnvBalance.EmitExact | crates/v12-bccompiler/src/stmt.rs:1404-1463 | emission succeeds exactly when every jump has a target and no switch two defaults; each instruction and each push stands inside exactly the environments of the loops around it |
| EnvBalance.EmitGood | crates/v12-bccompiler/src/stmt.rs:839-856 | emission of any nesting, switch defaults and labels included, is consistent: every control-flow edge carries the static depths |
| EnvBalance.Balanced | crates/v12-bccompiler/src/stmt.rs:1454-1463 | on every run the number of pushed environments is a function of the pc, pops never underflow, and the end leaves none |
| Tdz.EmitSound | crates/v12-bccompiler/src/model.rs:1147-1233 | every run of scoped code ends as the program does, throwing at exactly the reference where a plain evaluator finds the declaration not completed; an unguarded reference never misses its flag, for any nesting of regions, `for-of` and `for-in` included |
| Tdz.ElisionSound | crates/v12-bccompiler/src/model.rs:1147-1166 | the same for a whole unit |
| Tdz.GuardsExact | crates/v12-bccompiler/src/model.rs:1147-1188 | a reference goes without a guard exactly when its declaration lies in straight-line code before it |
| Tdz.ScopeNeeded | crates/v12-bccompiler/src/stmt.rs:982-1005 | a loop head is recorded as initialized though its flag write can be skipped; out of scope a reference would miss it |
| Tdz.FnCtx.Statement | crates/v12-bccompiler/src/stmt.rs:114-138 | the regions and the record of initialized bindings as the source keeps them, loop heads outside the region of the body |
| StorageLayout.Captures | crates/v12-bccompiler/src/collect.rs:2952-2959 | exactly the symbols some other unit refers to |
| StorageLayout.LayOut | crates/v12-bccompiler/src/collect.rs:2961-3199 | cells pairwise distinct and in range; an uncaptured formal lives in register i + 1 of its last position and an uncaptured rest parameter in the one behind the formals; linked bindings keep their slots; every other binding, flag, block-level function and synthetic value has a cell of its storage class exactly when it needs one; an environment exactly where one is needed |
| StorageLayout.Finalize | crates/v12-bccompiler/src/collect.rs:2952-3199 | every recorded reference of the program resolves to a cell its unit can reach: from another unit to a slot of an existing environment or to a global, never to a register; cells are apart, and layout succeeds when every unit fits |
| StorageLayout.CaptureSound | crates/v12-bccompiler/src/collect.rs:2952-2959 | the same of any layouts of the units of a collected program under the captures of its references |

## Left out

- `try`/`finally`: finalizer copies consume the compile-time stack, so "every exit runs each finalizer once" does not hold of this code.
- Generators, async functions, `yield*`, destructuring, spread, `with`, direct eval, modules and class bodies are not lowered; classes appear as far as their scopes go.
- `for-in` and `for-await`: the same shapes as `for-of` with other requests; the guard theorem covers their heads.
- Captured locals in the lowering: the correctness theorem is for locals in registers; environment accesses are covered by the depth, balance and guard theorems.
- Member access, calls and assignments outside optional chains; compound and logical assignment; `++` and `--`.
- Calls with spread, and the `this`, `super` and `new.target` expressions.
- Script completion values: the unit model is a function body, which returns undefined when it falls off its end.
- Spans: the builder and the peephole pass keep them aligned; what they contain is not modelled.
- Lowering: compile errors are sticky and lowering goes on after one, where the source returns at once; no code results either way.
- Machine.Exec: arithmetic is exact on integers of magnitude at most 2^53 and a request to the host beyond; `GenResumeMode` has no meaning here and stops the machine.
- Machine.LooseEq: null and undefined are compared before booleans are converted, as the interpreter does (crates/v12-interp/src/ops.rs:389-401); the mini interpreter converts first.
- Machine.Deliver: both delivery rules are covered, with and without truncation of the register window, by a flag of the machine.
- EnvBalance.Emit: modelled on values, not as an object that updates itself, with steps of its own that are not tied to machine code, as the lowering covers register locals only; exception edges are not part of it, as in the promise it models.
- EnvBalance: the contents of per-iteration environments and depths counted through them.
- EnvDepth.DepthExact: named function expressions that create themselves in their own prologue are outside the chain model; biases are unbounded, where the source saturates at 65535.
- PeepholeCorrect.OptimizeCorrect: of arbitrary code it assumes `PeepholeSafe.Stable`, and `PeepholeSafe.Clean` in every round; the code of units is proved stable but for payload words (`ListedCode.UnitStable`).
- Pipeline.PipelineCorrect: assumes `Pipeline.Harmless`, since the pass does harm some units; speaks of results and traces, not of registers.
- Pipeline.PipelineSafe: assumes `Pipeline.Harmless`.
- PeepholeSafe.Clean: necessary for every kept instruction to decode as before, not for a round to preserve meaning, since a harmful rewrite may be unreachable.
- Validator.ValidatorSound: of calls the registers behind the base of the window are not covered, as the source does not check them either (`WindowBase` gives the base); of the code of units they are, by `Pipeline.PipelineSafe`.
- Resolution: the evaluator gives a `continue` to an outer label of a nested label no meaning of its own; such programs are rejected and never run.
- Tdz.Evaluate: a declaration stays completed once it is, as flags are never cleared in the code; a block entered again finds its flags written.
- Tdz.Stmt: `try` and `with`, which are regions as a whole, and class declarations; scoping is a premise, as name resolution guarantees it.
- StorageLayout.LayOut: assumes that parameters and block-level functions are among the unit's declarations, as collection records them; binding descriptors and names are not modelled.
- Validation of handler nesting in crates/v12-bytecode/src/lib.rs, the disassembler, the analysis scans, the engine, the conformance harness and the command-line tools.

# A verified model of luauc's closed-package compiler and runtime

luauc compiles closed packages of Luau modules to WebAssembly. This project models the parts of it whose
correctness is hard to see by reading one function, and proves what they promise. To verify: `dafny verify
dfyconfig.toml` (Dafny 4.11). Where code and documentation disagree the model follows the code.

## Dispatch threading

The linker finds the loop that dispatches on the block selector (local 3) through one branch table, or two
when the blocks are split into pages, and turns `i32.const k; local.set 3; br loop` into one branch to block
`k` where the selector is dead behind that block. The model has

- the binary form of indices and operations (`Leb128`, `WasmCode`; section 5.2.2 of the WebAssembly Core
  Specification 2.0) and the structured labels of a body;
- a small-step machine (`WasmMachine`; section 4.4.8), with all other operations as arbitrary partial
  functions on the innermost label's operands and on the rest of the world;
- the pass itself as methods over the same arrays, label stack, edge lists and worklist (`ControlFlow`,
  `DispatchScan`, `EdgeScan`, `DispatchTables`, `SecondPass`, `Liveness`, `ThreadDispatch`), proved against
  an independent description of what it looks for (`DispatchPlan`) and of the shorter code (`CodeRewrite`);
- the simulation (`DispatchSimulation`, `DispatchRuns`, `ThreadingTheorem`): in step with the original, the
  threaded body has the same position, labels, operands and world, and the same locals except the selector
  where it is dead.

Nothing is left out either (`BranchesGoStraight`; `SingleTable` is a whole body), and control-flow edges are
exact both ways (`EdgeRuns`).

The result holds for every accepted body in which the two pages agree about every branch that is replaced
and stores a value at or above the base for which the low page has an entry. With a single table, or a low
page that does not reach past the base, there is no such branch. The pass does not check this, and
`PagedOverlap` shows a whole function body that it accepts and breaks.

## Closure liveness and pruning

The front end analyses a closed package and cuts functions that are never active, observed or handed to the
host. The model has a core language (`PackageSyntax`), the facts and when they are closed under every
transfer rule (`ClosureFacts`, `FactOrder`), the analysis as a class that updates its facts in place
(`ClosureAnalysis`), an interpreter whose host is an arbitrary strategy over everything it has seen
(`PackageMachine`), the cut (`Pruning`, `PruneChoice`), the lockstep proof (`PruneSimulation`, `PruneValues`,
`PruneRuns`, `PruneTheorem`) and the rewrite of the source text (`SourceRewrite`). The host owns globals,
modules outside the package, the methods of strings, and the operations on its own values and on every table
it has put a metatable on or frozen.

The analysis computes the least closed facts and gives up only if there are none. How precise these are is
said of the syntax (`ClosurePrecision`): functions that are only put under keys or in locals nobody reads are
cut, and functions in locals that are only tested are not called. But closed facts are not
enough, in three places, so `docs/field-liveness.md:3` promises more than the code does. For each there is a
package of three or four statements that returns a value, while what the analysis makes of it fails:

- left operands of `and` and `or` are not observed (`frontend/package_liveness.h:330-338`;
  `PruneCounterexample`);
- a string constant is no value at all (`:367-370`), so its methods are called without their arguments
  escaping (`StringMethods`);
- operands of binary operators are only observed (`:339-341`), while an operator of a host value or of a
  table with a metatable is shown them (`HostOperators`).

What holds is a condition on the package alone (`PruneChoice.Prunable`). It speaks of any closed facts that
also track strings: by them no left operand is an idle function, what meets an operator of the host may be
shown to the host, and where a string is indexed the result may be anything. Then the analysis does not give
up, and pruning preserves the behaviour towards every host, whatever fits into the text. The three packages
are proved not to meet it; `PrunedSafely` is one that does and loses a function.

## Runtime and host protocols

- `ModuleRegistry`: static requires. The first failure of a module is the one it ends with. If no initialiser catches an error of a require, modules are initialised
  for good, at most once, and a failed outermost require leaves nothing half initialised. More exactly, an
  initialised module stays so if no running initialiser is ever restarted, and can be undone wherever one can;
  a module that catches two errors of requiring itself can restart itself.
- `VarargFrames`: the call frames on the value stack. The body of a call finds its parameters in registers and
  the extra arguments right below them, can fetch these at any time, and the caller gets as many results as it
  asked for with everything below untouched.
- `ProtectedCalls`: structured exceptions by nesting, push-then-trap and pop; correct for all code exactly if
  no code is pending from an earlier raise that no protected call consumed.
- `ContextHandles`: generational handles. A destroyed handle aliases a later context of its slot exactly after
  a multiple of 65535 destroys; `docs/architecture.md:48-49` promises that it never does.
- `DupClosures`: sharing of closure templates.
- `FindString`: the fast string search agrees with a position-by-position search.

## Formats and in-place surgery

- `WireBytes`, `SourceRequest`, `RequestEncoder`, `RequestParser`, `RequestHost`, `RequestIdentity`: the canonical
  request. Every byte is determined by the request, accepted bytes encode exactly one request, and its digests
  leave no field of it open.
- `StringTable`, `SnapshotIr`, `SnapshotImage`, `SnapshotReader`, `SnapshotRecords`, `FrontendSnapshot`: the
  snapshot image. Its sections fill it without gaps, strings have dense numbers, and a walk over the image sees every block,
  instruction and operand with its constant as it was written.
- `CollectorChecks`, `CollectorSurgery`: one inserted collector check repairs all bare tables of a function.
- `ProtoForest`: prototypes flattened with parent numbers, checked and rebuilt.

`Wrappers` and `Sorting` are shared helpers.

## Model

| member | source | states |
|---|---|---|
| Leb128.EncodeRoundTrip | compiler/link/control_flow.zig:9-32 | reading what the writer emits gives the value back and stops right behind it, whatever follows |
| Leb128.ReadIndex | compiler/link/control_flow.zig:9-22 | the loop accepts exactly the unsigned 32-bit LEB128 encodings, at most five bytes, fifth byte at most 15 |
| Leb128.AppendIndex | compiler/link/control_flow.zig:24-32 | the loop appends the shortest encoding |
| WasmCode.EndIs | compiler/link/control_flow.zig:71-89 | the `end` at which a label is innermost is the one that closes it |
| WasmCode.EndFollows | compiler/link/control_flow.zig:71-89 | in a closed body every open label is closed by a later `end` that restores the labels around it |
| ControlFlow.MatchEnds | compiler/link/control_flow.zig:65-89 | the first pass accepts exactly the well-nested bodies and records for every label its matching `end` and `else` |
| ControlFlow.AddEdge | compiler/link/control_flow.zig:34-39 | the chains per target list exactly the edges recorded so far plus the new one; targets outside the body are dropped |
| DispatchPlan.TableSoundness | compiler/link/control_flow.zig:51-62 | the recorded table is what the dispatcher branches to for every value, exactly if the low page does not disagree with the high page beyond the base |
| DispatchPlan.PlanSoundness | compiler/link/control_flow.zig:140-211 | what the replaced branches use of the table is right, exactly if the pages agree about every overlapped one |
| DispatchPlan.LiveBackwards | compiler/link/control_flow.zig:177-188 | liveness of the selector propagates backwards over every edge that does not write it |
| DispatchPlan.BranchesGoStraight | compiler/link/control_flow.zig:189-211 | completeness, for one table and for two: a branch that stores a constant the tables name an open block for, from behind which nothing reads the selector, becomes the branch to that block, and its two operations go |
| DispatchScan.ChosenOnce | compiler/link/control_flow.zig:122-150 | the first recognised dispatcher is unique |
| DispatchTables.TestTable | compiler/link/control_flow.zig:125-139 | a branch table is taken exactly if it is the dispatcher's first table, or its second page |
| DispatchTables.TableEdges | compiler/link/control_flow.zig:140-158 | every target becomes an edge, every entry of a taken table is recorded from its base on, and anything but a plain block is refused |
| EdgeScan.PlainEdges | compiler/link/control_flow.zig:103-121 | the edges added for an operation are exactly its control-flow successors, and its branch label the one its depth names |
| SecondPass.ScanBody | compiler/link/control_flow.zig:91-164 | accepts exactly the bodies whose depths and dispatch tables fit; then all edges, branch labels and the chosen dispatcher's table are known |
| Liveness.ComputeLive | compiler/link/control_flow.zig:166-188 | `live[i]` holds exactly if a control-flow path from `i` reaches a read of the selector before any write, and no operation enters the worklist twice |
| ThreadDispatch.TestBranch | compiler/link/control_flow.zig:201-210 | a branch is replaced exactly if it is threadable, with the depth of its block |
| ThreadDispatch.CollectReplacements | compiler/link/control_flow.zig:189-211 | the replacements are exactly the threadable branches, in order, each with its three operations' bytes |
| ThreadDispatch.CopyAround | compiler/link/control_flow.zig:212-222 | the output is the body with every replaced stretch exchanged for its branch |
| ThreadDispatch.EmittedSize | compiler/link/control_flow.zig:212-222 | no replacement is longer than the three operations it stands for |
| ThreadDispatch.EmittedDecodes | compiler/link/control_flow.zig:212-222 | the output bytes decode as the rewritten operations |
| ThreadDispatch.Thread | compiler/link/control_flow.zig:64-223 | refuses exactly the bodies that are not accepted; otherwise the result decodes as the body with every threadable branch replaced and is not longer |
| ThreadDispatch.ThreadedRunsAlike | compiler/link/control_flow.zig:64-223 | for an accepted body whose pages agree about every overlapped branch, every start has the same results, traps, effects and divergence before and after |
| SingleTable.SingleTableThreaded | compiler/link/control_flow.zig:64-223 | a whole function body with one table is accepted and comes back with exactly its one triple replaced |
| CodeRewrite.LabelsCarryOver | compiler/link/control_flow.zig:212-222 | the labels open at a kept operation are the images of those open before |
| CodeRewrite.EndCarriesOver | compiler/link/control_flow.zig:212-222 | matching ends stay matching ends in the shorter code |
| CodeRewrite.ElseCarriesOver | compiler/link/control_flow.zig:212-222 | matching elses stay matching elses |
| DispatchSimulation.StepAligned | compiler/link/control_flow.zig:103-163 | every step keeps the entered labels equal to the textual ones and follows a control-flow edge the pass knows |
| DispatchSimulation.KillsOverwrites | compiler/link/control_flow.zig:177-188 | liveness stops exactly at operations whose step ends alike whatever the selector was |
| EdgeRuns.EdgeTaken | compiler/link/control_flow.zig:103-163 | conversely every edge of the control flow is taken by some step |
| DispatchSimulation.StepClean | compiler/link/control_flow.zig:133-139 | inside the dispatcher's header no operands are in flight |
| DispatchSimulation.StepRelated | compiler/link/control_flow.zig:189-222 | away from replaced triples both codes take corresponding steps and stay related |
| DispatchRuns.DispatcherRun | compiler/link/control_flow.zig:51-62 | from the loop's start the dispatcher, single or paged, leaves through the block of the selector's value |
| ThreadingTheorem.Detour | compiler/link/control_flow.zig:201-210 | the original's way from a replaced triple back through the loop ends behind the block the branch is redirected to |
| ThreadingTheorem.TripleStep | compiler/link/control_flow.zig:201-210 | the one branch of the threaded code matches that whole detour |
| ThreadingTheorem.ThreadingPreservesMeaning | compiler/link/control_flow.zig:64-223 | same results, traps and effects, and divergence exactly when the original diverges, from every start |
| PagedOverlap.OverlapBreaksThreading | compiler/link/control_flow.zig:51-62 | a whole function body, accepted at every size it can have in bytes, with an overlapped branch: it ends normally as written and traps once threaded |
| FactOrder.FieldOfGrows | frontend/package_liveness.h:112-130 | reading a field gives more from more facts |
| FactOrder.ResultOfGrows | frontend/package_liveness.h:189-268 | calling gives more from more facts |
| FactOrder.MeaningGrows | frontend/package_liveness.h:270-373 | so does every expression |
| ClosureAnalysis.Analysis.Merge | frontend/package_liveness.h:74-91 | facts only grow, `changed` says whether they did, and the value has flowed to the place |
| ClosureAnalysis.Analysis.ReadField | frontend/package_liveness.h:112-130 | the result is what the fields may hold, every read key is recorded and what comes back is observed |
| ClosureAnalysis.Analysis.Store | frontend/package_liveness.h:132-163 | stores into tables flow to the key or the computed entries; stores into functions and unknown values escape |
| ClosureAnalysis.Analysis.Invoke | frontend/package_liveness.h:204-268 | every callable object becomes active with its arguments, everything else escapes with them |
| ClosureAnalysis.Analysis.Eval | frontend/package_liveness.h:270-373 | the value is below what any closed facts say, and in a round that changes nothing the expression is settled with exactly its value |
| ClosureAnalysis.Analysis.Walk | frontend/package_liveness.h:375-462 | the same for statements |
| ClosureAnalysis.Analysis.Round | frontend/package_liveness.h:583-627 | a round that changes nothing leaves facts closed under every rule, recorded reads included |
| ClosureAnalysis.Analysis.Run | frontend/package_liveness.h:561-627 | rounds terminate; the result is closed and contained in all closed facts, and the analysis gives up only if none exist |
| ClosurePrecision.ValueClean | frontend/package_liveness.h:112-130 | by what is left of closed facts, expressions that leave the shelves alone evaluate to nothing that is put there |
| ClosurePrecision.WithoutClosed | frontend/package_liveness.h:112-163 | keys, locals and uses are kept apart: without what closed facts say of functions nobody looks at, they are still closed |
| ClosurePrecision.MinimalIgnores | frontend/package_liveness.h:561-627 | by the least facts a function is not called that is only put under keys never read, or in locals never read or only tested; and not observed unless tested |
| PruneChoice.AnchorBound | frontend/package_liveness.h:629-653 | following as many initialisers as there are suffices to find every table a name stands for |
| PruneChoice.RemovableField | frontend/package_liveness.h:629-653 | true exactly if the name stands for an unescaped table whose key is never read |
| PruneChoice.Choose | frontend/package_liveness.h:655-683 | cuts exactly the unused functions whose edit fits, and their statement exactly if removable |
| TextMarks.MeaningMarked | frontend/package_liveness.h:270-373 | adding what larger facts know of strings changes no value of an expression but that it may be a string |
| TextMarks.ClosedMarked | frontend/package_liveness.h:561-627 | the analysis's facts with that added are closed under every rule, so strings can be tracked without analysing again |
| PruneChoice.PruneBelow | frontend/package_liveness.h:561-683 | what is cut is chosen by the least closed facts and justified by them; if operands and methods are kept between them and any closed facts that track strings, no host can tell the difference |
| PruneChoice.KeptWithin | frontend/package_liveness.h:330-341 | what is kept between wide bounds on the facts is kept between narrower ones |
| PruneChoice.PrunePackage | frontend/package_liveness.h:561-683 | every function that is only put where nobody looks is cut; a package that meets the condition is pruned, and no host can tell the difference whatever fits |
| PreciseCut.PruneExample | frontend/package_liveness.h:132-143 | of a package with a used and an idle method and an ignored argument exactly the idle method and the argument go |
| PrunedSafely.PruneExample | frontend/package_liveness.h:561-683 | a package that computes with strings meets the condition: its idle function is cut and no host can tell |
| PruneSimulation.SetFieldAlike | frontend/package_liveness.h:132-163 | storing related values keeps heaps alike, and storing under an unread key of an unescaped table need not be matched |
| PruneValues.ReadSame | frontend/package_liveness.h:112-130 | reading a recorded key gives the same value in both runs |
| PruneValues.FreeTable | frontend/package_liveness.h:600-612 | tables the host may hold are equal in both runs |
| PruneRuns.EvalSame | frontend/package_liveness.h:270-373 | every expression has the same outcome in the package and its pruned form, up to cut functions |
| PruneRuns.CallSame | frontend/package_liveness.h:189-268 | so has every call, of closures, host values and tables with a metatable |
| PruneRuns.AskSame | frontend/package_liveness.h:595-613 | an operation the host performs on values it may hold has the same outcome |
| PruneRuns.OperateSame | frontend/package_liveness.h:330-341 | a binary operator on kept operands has the same outcome, metamethods included |
| PruneRuns.HostSame | frontend/package_liveness.h:595-613 | the host observes the same and does the same, calls back included |
| PruneRuns.RemovedSame | frontend/package_liveness.h:629-674 | a removed statement only stored where nobody reads |
| PruneRuns.ExecSame | frontend/package_liveness.h:375-462 | every statement has the same outcome |
| PruneTheorem.PruningPreservesBehaviour | frontend/package_liveness.h:561-703 | for every host and every length of run both packages end alike after the same observations, and no cut function ever ran |
| PruneCounterexample.LeftOperandsMatter | frontend/package_liveness.h:330-338 | closed facts alone do not suffice: a cut left operand changes the outcome although the right operand has no effect |
| PruneCounterexample.PruneExample | frontend/package_liveness.h:561-683 | the analysis itself chooses that cut |
| PruneCounterexample.NotPrunable | frontend/package_liveness.h:330-338 | that package does not meet the condition |
| StringMethods.PruneExample | frontend/package_liveness.h:112-130 | a function handed to a method of a constant string is cut, and in every run that is long enough the outcome differs |
| StringMethods.NotPrunable | frontend/package_liveness.h:367-370 | that package does not meet the condition |
| HostOperators.PruneExample | frontend/package_liveness.h:339-341 | what the operand of a host value's operator calls is cut, and in every run that is long enough the outcome differs |
| HostOperators.NotPrunable | frontend/package_liveness.h:339-341 | that package does not meet the condition |
| SourceRewrite.Rewrite | frontend/package_liveness.h:684-730 | same length, every line break in place, each position as its applied edit or the source says |
| SourceRewrite.AppliedDisjoint | frontend/package_liveness.h:720-729 | applied edits are pairwise disjoint and in text order |
| SourceRewrite.OutermostApplied | frontend/package_liveness.h:684-730 | of properly nested edits every candidate lies in exactly one applied edit, the outermost |
| ModuleRegistry.Registry.Require | runtime/src/call_frame.cpp:3167-3221 | a require answers from the cache, raises the cached failure once, detects cycles, or starts the initialiser |
| ModuleRegistry.Registry.FinishRequire | runtime/src/call_frame.cpp:3239-3269 | the end of an initialiser: cached value, cached error, or the first failure preserved |
| ModuleRegistry.FirstFailure | runtime/src/call_frame.cpp:3191-3253 | a module found in a cycle ends with the cycle's error, raised and cached, whatever happens in between and however its initialiser ends |
| ModuleRegistry.FailureReported | runtime/src/call_frame.cpp:3247-3253 | any other failing initialiser raises its own error for its module, with exactly that error cached |
| ModuleRegistry.UnwindReports | runtime/src/call_frame.cpp:3239-3253 | an error let through by several initialisers is wrapped once for each, and each caches it as it arrived |
| ModuleRegistry.MessageStays | runtime/src/call_frame.cpp:3216-3220 | the message stays in the record until the module is required again |
| ModuleRegistry.Registry.FinishEntry | runtime/src/call_frame.cpp:3866-3903 | completion of the entry module |
| ModuleRegistry.ProgramKeeps | runtime/src/call_frame.cpp:3086-3269 | at any point of any run of a program, whatever is caught, only the entry or modules on the require stack are initialising, and initialised records hold their value |
| ModuleRegistry.ReturnsCached | runtime/src/call_frame.cpp:3185-3190 | a require that returns normally yields what is cached in an initialised record, the entry included |
| ModuleRegistry.InitializedForGood | runtime/src/call_frame.cpp:3167-3269 | without restarts of running initialisers a module stays initialised with its value and no body completes twice |
| ModuleRegistry.CalmRuns | runtime/src/call_frame.cpp:3167-3269 | if no initialiser catches, nothing is restarted and outside all requires every module but the entry is at rest |
| ModuleRegistry.RequiresAreTransactions | runtime/src/call_frame.cpp:3167-3269 | from the start of a program whose initialisers catch nothing: an initialised module keeps its record from any point on, no body completes twice, and outside all requires every module but the entry is initialised or as if never required |
| ModuleRegistry.RestartUndoes | runtime/src/call_frame.cpp:3191-3253 | wherever a running initialiser can be restarted, its module can become initialised and then uninitialised |
| ModuleRegistry.CaughtCyclesRestart | runtime/src/call_frame.cpp:3191-3197 | two caught self-requires make such a restart possible |
| VarargFrames.LuaStack.Precall | runtime/src/call_frame.cpp:183-240 | enters a function in place: frame, nil-filled parameters, top |
| VarargFrames.LuaStack.PrepVarargs | runtime/src/call_frame.cpp:2983-3009 | refuses exactly the frames that are not fresh; otherwise moves the frame above its arguments |
| VarargFrames.LuaStack.GetVarargsFixed | runtime/src/call_frame.cpp:3011-3036 | writes the extra arguments, padded or cut to the count, into registers |
| VarargFrames.LuaStack.GetVarargsMultret | runtime/src/call_frame.cpp:3038-3059 | the same for all of them, growing the stack where needed |
| VarargFrames.LuaStack.Return | runtime/src/call_frame.cpp:1995-2031 | refuses what lies outside the frame; the overlapping copy moves the results to its start |
| VarargFrames.LuaStack.Poscall | runtime/src/call_frame.cpp:278-302 | results go to the function's slot and up, padded or cut to what was asked for, and the frame is gone |
| VarargFrames.CallDelivers | runtime/src/call_frame.cpp:183-240 | whatever the arguments, the body starts with the parameters in registers, the extra arguments right below and nothing changed up to the function |
| VarargFrames.ExtrasArrive | runtime/src/call_frame.cpp:3011-3059 | at any point of any body that only touches its registers and what is above, the extra arguments arrive in order |
| VarargFrames.CallReturns | runtime/src/call_frame.cpp:278-302 | the caller finds the results it asked for from the function's slot up, all slots below as before the call, and its own frame again |
| ProtectedCalls.Bridge.ProtectedCall | profiles/embed/provider_bridge.c:18-27 | saves, sets and restores the two globals around the host call |
| ProtectedCalls.Bridge.HostProtectedCall | hosts/wasmtime/src/main.rs:341-359 | a trap with a pending code becomes that status, any other trap goes on |
| ProtectedCalls.BridgeImplements | profiles/embed/provider_bridge.c:15-37 | with nothing pending the bridge is structured exceptions for every nesting; a returning call leaves globals and codes as on entry |
| ProtectedCalls.RaisesBalance | profiles/embed/provider_bridge.c:34-37 | code that does not crash keeps whatever codes were pending before |
| ProtectedCalls.PendingExactly | hosts/wasmtime/src/main.rs:354-357 | the bridge is right about all code exactly if no code is pending |
| ContextHandles.Contexts.ContextCreate | compiler/compiler_host.zig:167-195 | the first free slot takes the content and its handle is returned |
| ContextHandles.CreateSucceeds | compiler/compiler_host.zig:167-195 | after any history valid content gets a handle exactly while fewer than eight contexts are created and not destroyed |
| ContextHandles.GenerationCounts | compiler/compiler_host.zig:212-223 | a slot's generation counts its destroys modulo 65535, and a live context never changes |
| ContextHandles.HandleResolves | compiler/compiler_host.zig:155-165 | an issued handle resolves later exactly if its slot is live and was destroyed a multiple of 65535 times |
| ContextHandles.FreshHandles | compiler/compiler_host.zig:155-223 | with fewer destroys it resolves exactly until destroyed, to the bytes it was created with |
| ContextHandles.OnlyIssuedResolve | compiler/compiler_host.zig:159-165 | a handle below 2^24 that resolves was issued for what it resolves to |
| ContextHandles.StaleHandleAliases | compiler/compiler_host.zig:212-223 | after 65535 destroys of its slot a stale handle resolves to another context |
| DupClosures.Site.Capture | runtime/src/call_frame.cpp:2211-2254 | one capture stays on the template while it matches and leaves it untouched once it has been handed out |
| DupClosures.Site.DupClosure | runtime/src/call_frame.cpp:2181-2260 | the closure holds what was captured, in order, up to raw equality, all closures handed out before keep theirs, and the template is handed out exactly if unused or matching |
| FindString.LeftmostMeans | runtime/src/call_frame.cpp:1685-1727 | the reference search gives the first matching position, or none matches |
| FindString.SimpleFindClass | runtime/src/call_frame.cpp:1614-1636 | accepts exactly the simple sets and reduces them to what they match |
| FindString.FindLiteral | runtime/src/call_frame.cpp:1714-1726 | skipping by the first byte misses no match |
| FindString.Find | runtime/src/call_frame.cpp:1638-1743 | declines or answers with the leftmost match from the normalised start, nil exactly if there is none |
| SourceRequest.EncodingUnique | hosts/wasmtime/src/main.rs:92-188 | the layout leaves no byte open: a request has one encoding |
| RequestIdentity.ManifestDetermines | hosts/wasmtime/src/main.rs:84-102 | the manifest's bytes determine the entry and every module's name, source name, plans and content digest |
| RequestIdentity.IdDetermines | schema/source_package_v1.zig:262-296 | the bytes under the request's identity determine all its other fields and the manifest's digest |
| RequestIdentity.IdIdentifies | schema/source_package_v1.zig:262-296 | valid requests with one identity are the same, contents included, unless one of the digests named collides |
| RequestIdentity.IdDomain | hosts/wasmtime/src/main.rs:129-131 | those bytes begin with the text that separates them from other digests |
| RequestEncoder.Encode | hosts/wasmtime/src/main.rs:92-188 | the bytes written encode the request; refused only beyond 2^32 bytes |
| RequestParser.ParseModule | schema/source_package_v1.zig:198-252 | finds the one valid module whose record and payload stand there, or there is none |
| RequestParser.Parse | schema/source_package_v1.zig:110-316 | accepts exactly the encodings of valid requests under the expected digests and returns that request |
| RequestParser.DecodingUnique | schema/source_package_v1.zig:110-316 | bytes encode at most one valid request |
| RequestHost.LessTotal | schema/source_package_v1.zig:235-238 | the order of module names is total and strict |
| RequestHost.NeighbourSites | hosts/wasmtime/src/main.rs:65-75 | comparing neighbours after sorting finds exactly whether two plans share a call site |
| RequestHost.NeighbourNames | hosts/wasmtime/src/main.rs:76-79 | likewise for module names |
| RequestHost.BuildRequest | hosts/wasmtime/src/main.rs:59-188 | refused exactly for two plans at one site, two modules of one name, no modules, an absent entry or too many bytes; otherwise the sorted modules are encoded and the compiler parses them back |
| StringTable.Strings.Intern | frontend/frontend_adapter.cpp:268-291 | a string keeps its number for good; only a string that does not fit is refused, and then the table is marked as failed |
| StringTable.NumbersMatch | frontend/frontend_adapter.cpp:272-275 | numbers given at any two times are equal exactly for equal strings |
| SnapshotIr.IrSections.SerializeIr | frontend/frontend_adapter.cpp:991-1143 | refuses exactly what passes a limit as built; otherwise six sections hold all records, each naming its first record and its count in the others |
| SnapshotImage.BuildWireImage | frontend/frontend_adapter.cpp:1145-1191 | refuses exactly incomplete records and more than 256 MiB; otherwise header, directory and the sections fill the image without gaps |
| SnapshotImage.ParseSnapshot | tools/ir_ledger.mjs:111-139 | of an image, the directory read back names the place, record size and count of every section; other headers are refused |
| SnapshotReader.Walk | tools/ir_ledger.mjs:146-190 | over records that stand in the image, the walk sees every function's blocks, operands with their constants, and instructions, in order |
| FrontendSnapshot.BuildSnapshot | frontend/frontend_adapter.cpp:1276-1319 | refuses exactly a failed string table, a passed limit, incomplete records or too many bytes; otherwise gives the image of the module |
| FrontendSnapshot.ReadSnapshot | tools/ir_ledger.mjs:111-190 | of the image of a module whose operands name constants of their own function, reading sees exactly what was written |
| FrontendSnapshot.StringStands | frontend/frontend_adapter.cpp:283-290 | in the image, the record of every number names the stretch at which its string stands |
| SnapshotRecords.BlockInImage | schema/frontend_snapshot_v1.h:168-178 | every field of every block is found at its offset, behind the blocks of the functions before |
| SnapshotRecords.InstInImage | schema/frontend_snapshot_v1.h:180-186 | likewise for instructions, with the number of their first operand |
| SnapshotRecords.ConstInImage | frontend/frontend_adapter.cpp:1104-1131 | likewise for constants, signed ones included |
| SnapshotRecords.FnInImage | schema/frontend_snapshot_v1.h:151-166 | likewise for functions |
| CollectorChecks.InsertionEmbeds | frontend/frontend_adapter.cpp:949-979 | insertion is an order embedding of instructions, operands, blocks and mappings, and says exactly which blocks gain the new instruction |
| CollectorChecks.OnlyOwnerGains | frontend/frontend_adapter.cpp:960-973 | with disjoint blocks only the owner does |
| CollectorChecks.RestoredHasNoBare | frontend/frontend_adapter.cpp:892-989 | after one insertion no published table is bare |
| CollectorChecks.RestoreIdempotent | frontend/frontend_adapter.cpp:980-989 | repairing twice is repairing once |
| CollectorSurgery.IrFunction.BarePublishedTable | frontend/frontend_adapter.cpp:892-947 | the scan finds a bare table and its insertion point exactly as described |
| CollectorChecks.BareMeans | frontend/frontend_adapter.cpp:892-947 | what the scan finds, said with quantifiers: the check goes right behind the last initialiser the block reaches before another table, and there is no other check |
| CollectorSurgery.IrFunction.InsertCollectorCheck | frontend/frontend_adapter.cpp:949-979 | the loops renumber everything to the image of the insertion |
| CollectorSurgery.IrFunction.RestoreStrippedTableOwnership | frontend/frontend_adapter.cpp:980-989 | the function afterwards has no bare table |
| ProtoForest.Collector.Collect | frontend/frontend_adapter.cpp:357-374 | the list stays proper whatever is shared; a tree without shared prototypes is appended in preorder with parent numbers, exactly if it fits the limit |
| ProtoForest.ProgramAccepted | runtime/src/call_frame.cpp:3754-3781 | the forest check passes: module roots increase from 0, exactly they have no parent, and every other parent comes first |
| ProtoForest.Rebuild | runtime/src/call_frame.cpp:3803-3840 | counting and filling give every prototype its children in order of their numbers |
| ProtoForest.ProgramRoundTrip | runtime/src/call_frame.cpp:3803-3840 | flattening and rebuilding gives back every module's tree with the same child order |
| ProtoForest.DescribesOne | runtime/include/aot_runtime_v1.h:154-156 | the child arrays describe one tree only |

## Left out

- Validation of WebAssembly code: threading is proved for starts from which the original never gets stuck; operand types and missing labels are what validation excludes.
- Wide immediates of other operations: only the operations the pass looks at are decoded, every other one is opaque bytes.
- How `compiler/link/linker.zig` reads the operation lists (`parseArmExpr`, from line 1588): threading is proved for every list that tiles the body and repeats its bytes. The rest of the linker and the shared regions are not modelled.
- ClosureAnalysis.Analysis.Invoke: one value per argument and result; `self` parameters, varargs and the spreading of a last call or `...` over several parameters are not modelled.
- ClosureAnalysis.Analysis.Eval: without interpolated strings and `...`; groups, type assertions and instantiations are their operands.
- ClosureAnalysis.Analysis.Walk: one variable and one value per declaration, assignment or return; without `repeat`, numeric and generic `for`, `break`, `continue`, `goto`, exported locals and compound assignment.
- PruneChoice.PrunePackage: the condition is sufficient; where it fails a package may still behave the same, since whether a cut function is missed depends on the run.
- Metatables of other types than tables and host values: numbers, booleans, nil and functions have no operations of the host. Unary minus is not modelled; the operand it shows to a metamethod is the value that has it.
- Identity of closures: in the interpreter two closures of one function over the same cells are the same value.
- Parsing: packages are syntax trees with the collector's records; that the text edit of a function yields the pruned tree is not modelled.
- Caps of the analysis (256 rounds, 20,000,000 operations, source sizes): they leave the package unchanged.
- Allocation failure and stack growth anywhere.
- SHA-256 and UTF-8 validation: arbitrary functions in the request format; error codes of the parser are one refusal.
- The runtime-profile and compile-result formats: the same kind of round trip as the request, with more fields.
- FrontendSnapshot.BuildSnapshot: the twelve sections of prototype data are given bytes, and building the IR and the passes between its limits and its records are given functions. What a walk sees of an operand that names no constant of its own function is not said.
- VarargFrames.LuaStack.Precall: calls of C functions, open upvalues, usage counters and limits of the stack size.
- ProtoForest.Collector.Collect: what a shared prototype's second parent loses is not said beyond the list staying proper.
- Pattern matching beyond the forms the fast search answers.
- Sandboxing, threads and garbage collection of module initialisers: an initialiser is a sequence of requires and one ending.

# Handler side-effect analysis for the Kubernetes scheduler

This project models the core of a static analysis of the Kubernetes
scheduler. The analysis finds the informer event handlers that the scheduler
registers with `AddEventHandler`. For a chosen handler it then reports which
registered allocations (the `Binding` object) the handler can affect. It
does this through fields of the scheduler that the handler writes and that
the scheduling loop later reads.

The model has three parts.

* **Handler registry, over SSA** (`SsaCollector`, `ssa_collector.dfy`). The
  function `addAllEventHandlers` of the watched package is scanned. Every
  interface call of `AddEventHandler` whose argument is a boxed handler
  literal is recorded. It maps to the handler functions bound to the
  literal's `AddFunc`, `UpdateFunc` and `DeleteFunc` fields, keyed `"Add"`,
  `"Update"` and `"Delete"`. A filtering handler is unwrapped to the plain
  handler literal stored in its second field. `CollectorTestdata`
  (`ssa_testdata.dfy`) writes out the SSA of the collector's test package.
  It proves the registry the collector's test expects: two registrations,
  each with three slots.
* **Handler names, over syntax trees** (`AstCollector`, `ast_collector.dfy`).
  This is the analysis pass that reports every `AddEventHandler` call and
  collects the method names bound in its handler literal. Packages whose
  path ends in `.test` are skipped. `TestdataResult` proves the diagnostics
  that the pass's test package expects.
* **Effect tracker** (`Tracker`, `written.dfy`, `reads.dfy`, `taint.dfy`,
  `tracker.dfy`). It runs three phases.
  * Phase A (`WrittenMembers`) walks the scheduler methods reachable from
    the handler. It collects the receiver fields they write.
  * Phase B (`ReadPoints`) finds the `Schedule` interface calls in
    `scheduleOne`. These are the read points. Each one is recorded once per
    written field that counts as read.
  * Phase C (`Taint`) propagates taint forward from the read points along
    referrer edges. A store of a tainted value taints its address and the
    allocation the address belongs to. The phase recurses into direct
    callees and closures, and it reports the registered allocations that it
    reaches. Its run is proved against two definitions. One is the pairs of
    sets closed under the propagation rules (`UpperClosed`), which bound it
    from above. The other is the chains of single taint steps (`Reaches`),
    which it covers from below.

The SSA program is a value, `Ssa.Graph`. Values and functions are indices
into two sequences. Each value carries its instruction, its printed type and
its referrers in order. A Go panic in the source is an `Err` result.
Iteration over a Go map is a choice with `:|`. Every contract about such an
iteration therefore holds for every iteration order.

## Model

| member | source | states |
|---|---|---|
| WrittenMembers.IsWritten | static-analysis/ssapasses/tracker/tracker.go:26-47 | The test panics exactly when the field address has a referrer count other than one, or when its one referrer is a load that has no referrers. A `true` answer means the one referrer is a store through that address, or a load whose first referrer invokes a method on the loaded value. |
| WrittenMembers.OtherUseNotWritten | static-analysis/ssapasses/tracker/tracker.go:31-46 | A field address whose single referrer is neither a store nor a load is not written. |
| WrittenMembers.WrittenAmongMembers | static-analysis/ssapasses/tracker/tracker.go:50-62 | The fields collected from the receiver's referrers are exactly the field addresses among them that the written test accepts. |
| WrittenMembers.PanicAmongMembers | static-analysis/ssapasses/tracker/tracker.go:52-59 | Scanning the receiver's referrers panics exactly when the written test panics on one of its field addresses. |
| WrittenMembers.CalleesAmongMembers | static-analysis/ssapasses/tracker/tracker.go:65-80 | The functions queued are exactly the static callees of the non-invoke calls whose printed form mentions the scheduler type. |
| WrittenMembers.NilCalleeAmongMembers | static-analysis/ssapasses/tracker/tracker.go:70-75 | A nil function is queued exactly when such a followed call has no static callee. |
| WrittenMembers.ReachableStep | static-analysis/ssapasses/tracker/tracker.go:223-230 | A callee of a reachable function is reachable. |
| WrittenMembers.ClosedHoldsReachable | static-analysis/ssapasses/tracker/tracker.go:223-230 | A set that holds the handler and is closed under the followed call edges holds every function reachable from the handler. |
| WrittenMembers.FrontierVisit | static-analysis/ssapasses/tracker/tracker.go:226-230 | Dequeuing a function and queuing its callees keeps the worklist invariant: everything visited or queued is reachable, and every successor of a visited function is visited or queued. |
| WrittenMembers.FrontierDone | static-analysis/ssapasses/tracker/tracker.go:226-230 | When the queue is empty, the visited functions are exactly those reachable from the handler. |
| WrittenMembers.SearchVisit | static-analysis/ssapasses/tracker/tracker.go:226-230 | One step of the worklist keeps the written set equal to the union of the fields written by the functions visited so far, none of which panics. |
| WrittenMembers.TrackSingleFunction | static-analysis/ssapasses/tracker/tracker.go:49-81 | Processing one function succeeds exactly when it does not panic. On success it adds exactly that function's written receiver fields and returns its followed callees in instruction order. |
| WrittenMembers.FindWrittenMembers | static-analysis/ssapasses/tracker/tracker.go:222-230 | Phase A succeeds exactly when no function reachable from the handler panics. It then returns exactly the fields written by the reachable functions. |
| ReadPoints.ReadPointsAmongMembers | static-analysis/ssapasses/tracker/tracker.go:85-99 | A call is a read point exactly when it is a `Schedule` invoke of the scanned code and at least one written member counts as read. |
| ReadPoints.ReadPointsAmongLength | static-analysis/ssapasses/tracker/tracker.go:92-98 | Each `Schedule` invoke is appended once per member that counts as read. |
| ReadPoints.AppendTo | static-analysis/ssapasses/tracker/tracker.go:96 | Appending to a map entry creates a missing entry only when something is appended. It extends that entry by exactly the appended points and leaves every other entry as it was. |
| ReadPoints.AppendPerMember | static-analysis/ssapasses/tracker/tracker.go:92-98 | The loop over the written members, in any order, appends the call once per member that counts as read. |
| ReadPoints.FindReadPoints | static-analysis/ssapasses/tracker/tracker.go:83-103 | Scanning a method appends exactly its read points, in instruction order, to that method's entry of the read map. Nothing else changes. |
| Taint.BaseRoot | static-analysis/ssapasses/tracker/tracker.go:158-163 | The root of a field-address chain is not a field address and is no later than its start. A value that is not a field address is its own root. |
| Taint.FollowFieldBase | static-analysis/ssapasses/tracker/tracker.go:158-163 | The backtracking loop stops at the root of the field-address chain. |
| Taint.BindingWellFormed | static-analysis/ssapasses/tracker/tracker.go:184-206 | A direct call of a function binds its arguments to the callee's parameters, and a closure binds its bindings to the free variables. Each actual has a formal at its position, and every formal is a plain value. |
| Taint.ClosedHoldsFlow | static-analysis/ssapasses/tracker/tracker.go:119-214 | A set that holds the seeds and is closed under taint steps holds the end of every chain of taint steps from a seed. A taint step goes to a propagating referrer, to the allocation at the root of a store's address, or to the formal that a call or closure binds the value to. |
| Taint.FlowEndpointReported | static-analysis/ssapasses/tracker/tracker.go:124-129 | When the sources are closed under taint steps and their registered allocations are all reported, every registered allocation that a chain of taint steps reaches from a seed is reported. |
| Taint.BindByPosition | static-analysis/ssapasses/tracker/tracker.go:188-208 | The callee's seeds are exactly the formals (parameters or free variables) at the positions of tainted actuals. |
| Taint.QueueReferrers | static-analysis/ssapasses/tracker/tracker.go:113-117 | The initial queue holds every referrer of every seed, and nothing else. |
| Taint.InitRun | static-analysis/ssapasses/tracker/tracker.go:107-117 | The state right after the seeds' referrers are queued satisfies the propagation invariant. |
| Taint.ExpandStep | static-analysis/ssapasses/tracker/tracker.go:124-179 | Dequeuing an allocation, extract, field address or load taints it, reports it if it is a registered allocation, and queues its referrers. All of this keeps the propagation invariant. |
| Taint.StoreFires | static-analysis/ssapasses/tracker/tracker.go:140-167 | Dequeuing a store whose value is tainted and whose address is not taints the address and queues the allocation at the root of the address chain, if there is one. This keeps the propagation invariant. |
| Taint.StoreSkips | static-analysis/ssapasses/tracker/tracker.go:140-156 | Dequeuing a store whose value is untainted, or whose address is already tainted, changes nothing but the queue and keeps the propagation invariant. |
| Taint.IgnoreStep | static-analysis/ssapasses/tracker/tracker.go:180-213 | Dequeuing an interface call, a call of a function value that is not a function, or any other instruction changes nothing but the queue and keeps the propagation invariant. |
| Taint.BindStep | static-analysis/ssapasses/tracker/tracker.go:180-211 | Dequeuing a call or closure, after a nested run from the formals of its tainted actuals, appends the nested endpoints and keeps the propagation invariant. The nested run's sources join the run's sources. |
| Taint.FinishRun | static-analysis/ssapasses/tracker/tracker.go:119-214 | When the queue is empty and every nested run finished, the sources are closed under taint steps and every registered allocation among them is reported. |
| Taint.Dequeue | static-analysis/ssapasses/tracker/tracker.go:119-214 | One turn of the loop keeps the propagation invariant, only grows the taint set and only appends endpoints. An allocation, extract, field address or load is tainted, its referrers are queued, and it is appended if it is a registered allocation. A store of a tainted value through an untainted address taints the address and queues the root allocation of the address, if any. Any other instruction leaves the taint set alone and only drops the head of the queue. Only a call of a function or a closure appends endpoints. |
| Taint.TrackBinding | static-analysis/ssapasses/tracker/tracker.go:183-211 | A call or closure is tracked from the formals bound to its tainted actuals. The nested endpoints are appended after the earlier ones, the caller's taint set is unchanged, and the call leaves the queue. |
| Taint.TrackReadPointWithinMethod | static-analysis/ssapasses/tracker/tracker.go:105-217 | Seeds stay tainted. Everything tainted or followed, here and in nested runs, lies within every pair closed under the propagation rules (store and call rules included). Every endpoint is a followed registered allocation. When no guard was hit and the seeds are plain values, the sources are closed under taint steps, and every registered allocation that a chain of taint steps reaches from the seeds is reported. |
| Tracker.DriverReadMapContents | static-analysis/ssapasses/tracker/tracker.go:236-244 | Read points are recorded only for the scheduler's `scheduleOne` methods. Each one is a `Schedule` invoke in the method it is recorded for. |
| Tracker.DriverReadMapEmpty | static-analysis/ssapasses/tracker/tracker.go:236-244 | With no member that counts as read, or with no `Schedule` invoke in any `scheduleOne`, the read map is empty. |
| Tracker.DriverReadMapComplete | static-analysis/ssapasses/tracker/tracker.go:236-244 | With some member that counts as read, every `Schedule` invoke of every `scheduleOne` is recorded for its method. |
| Tracker.PointsRecorded | static-analysis/ssapasses/tracker/tracker.go:236-244 | Every read point of the handler (a `Schedule` invoke of `scheduleOne`, when a field written from the handler counts as read) is recorded by Phase B. |
| Tracker.RecordedPoints | static-analysis/ssapasses/tracker/tracker.go:236-244 | Phase B records only read points of the handler, each a call. |
| Tracker.ScanDriverMethods | static-analysis/ssapasses/tracker/tracker.go:236-244 | The loop over the scheduler's methods, skipping every method not named `scheduleOne`, computes the read map. |
| Tracker.ToSet | static-analysis/ssapasses/tracker/tracker.go:251-254 | The seed set holds exactly the read points of the method. |
| Tracker.TrackReadMap | static-analysis/ssapasses/tracker/tracker.go:249-257 | Tracking each function of the read map, in any order, reports registered allocations only, within every pair closed under propagation from the read points. When no guard was hit, every registered allocation reached from the read points of some function is reported. An empty read map reports nothing. |
| Tracker.ReadMapCovers | static-analysis/ssapasses/tracker/tracker.go:249-257 | What taint steps reach from some read point of the handler, they reach from the read points recorded for one function. |
| Tracker.TrackWritten | static-analysis/ssapasses/tracker/tracker.go:234-257 | Given the fields Phase A found, Phases B and C report registered allocations only, within every pair closed under propagation from the handler's read points. When no guard was hit, they report every registered allocation a chain of taint steps reaches from those read points. They report nothing when no field counts as read or no `scheduleOne` holds a `Schedule` invoke. |
| Tracker.TrackSingleEntryPoint | static-analysis/ssapasses/tracker/tracker.go:219-261 | The three phases fail exactly when a function reachable from the handler panics. Otherwise the endpoints are registered allocations that lie within every pair closed under propagation from the handler's read points. A run that hit no guard reports every registered allocation a chain of taint steps reaches from them. The run reports nothing, and complete, when no reachable function writes a member that counts as read, or when no `scheduleOne` holds a `Schedule` invoke. |
| Tracker.MethodList | static-analysis/ssapasses/tracker/tracker.go:269-278 | A type's method list is its value methods followed by the methods of its pointer type. |
| Tracker.WithTypesContents | static-analysis/ssapasses/tracker/tracker.go:266-280 | The method map gains exactly the declared type names. Each name maps to the method list of its last declaration. |
| Tracker.MethodMapInOthers | static-analysis/ssapasses/tracker/tracker.go:264-265 | Packages whose path is not the pattern leave the method map unchanged. |
| Tracker.TrackCall | static-analysis/ssapasses/tracker/tracker.go:288-292 | The slots of one registration are taken in any order. The call fails exactly when some handler of a target slot reaches a function that panics. Otherwise each target slot gets a report, earlier reports are kept, and every report carries what tracking its handler promises. |
| Tracker.Tracker.constructor | static-analysis/ssapasses/tracker/tracker.go:296-308 | The tracker takes the collector's pattern, program and registry. Its method map is that of the watched package, and its endpoint registry holds exactly the `Binding` allocation. |
| Tracker.Tracker.GenerateMethodMap | static-analysis/ssapasses/tracker/tracker.go:263-284 | Records the method list of every type of every package matching the pattern, in package order. Nothing else changes. |
| Tracker.Tracker.TrackEntryPoints | static-analysis/ssapasses/tracker/tracker.go:286-294 | The run fails exactly when some handler bound to `target$bound` reaches a function that panics. Otherwise every such (registration, slot) is reported, and every report names a target handler and carries what tracking that handler promises: registered allocations within every closed pair and, for a finished run, every registered allocation reached from its read points. |
| SsaCollector.HandlerSlot | static-analysis/ssapasses/collector/collector.go:37-47 | Maps a field's printed form to `Add`, `Update`, `Delete` or `Unknown`, checking for `AddFunc`, `UpdateFunc` and `DeleteFunc` in that order. Each outcome holds if and only if its condition does. |
| SsaCollector.ReSlotsOk | static-analysis/ssapasses/collector/collector.go:49-56 | Extraction succeeds exactly when every field address among the literal's referrers has a first referrer that stores a closure. |
| SsaCollector.ReSlotsKeys | static-analysis/ssapasses/collector/collector.go:49-56 | The slots of the result are exactly the slots of the literal's field addresses. |
| SsaCollector.ReSlotsLastWins | static-analysis/ssapasses/collector/collector.go:55 | A slot maps to the handler bound by the last field address with that slot. |
| SsaCollector.ExtractREHandlers | static-analysis/ssapasses/collector/collector.go:34-59 | The loop over the literal's referrers computes the slot map, or the panic of the first field address that is not bound to a closure. |
| SsaCollector.LoadedAlloc | static-analysis/ssapasses/collector/collector.go:78 | Unboxing an interface yields an allocation, or fails. |
| SsaCollector.InnerHandlerAlloc | static-analysis/ssapasses/collector/collector.go:28-30 | The inner handler of a filtering handler is found only through a field address in its second referrer, and it is an allocation. |
| SsaCollector.ExtractFREHandlers | static-analysis/ssapasses/collector/collector.go:27-32 | A filtering handler yields the slots of its inner plain handler literal, or the panic of reaching that literal. |
| SsaCollector.Classify | static-analysis/ssapasses/collector/collector.go:69-90 | A call is ignored exactly when it is not an `AddEventHandler` invoke. It is unsupported exactly when its argument is not a boxed interface. A registration without an argument, or whose boxed value is not a load of an allocation, panics. Otherwise it is unrecognised exactly when the allocation's type ends in neither handler type name. A filtering handler is recorded exactly when its inner literal's slots can be read, and then with those slots. Any other plain handler literal is recorded exactly when its own slots can be read, and then with its own slots. |
| SsaCollector.ScanOk | static-analysis/ssapasses/collector/collector.go:67-92 | Scanning the entry function succeeds exactly when no registration in it panics. |
| SsaCollector.ScanKeys | static-analysis/ssapasses/collector/collector.go:67-92 | The registry's calls are exactly the earlier ones plus the recorded registrations of the scanned code. |
| SsaCollector.ScanValues | static-analysis/ssapasses/collector/collector.go:83-86 | Each recorded registration maps to its own slot map. Earlier entries not rescanned are unchanged. |
| SsaCollector.ScanUnsupported | static-analysis/ssapasses/collector/collector.go:88-89 | The calls reported as unsupported are exactly those whose argument is not a boxed interface. |
| SsaCollector.CollectInOthers | static-analysis/ssapasses/collector/collector.go:63-64 | Packages whose path is not the pattern contribute nothing. |
| SsaCollector.ScanEntry | static-analysis/ssapasses/collector/collector.go:65-93 | The scan of the entry function's blocks computes the registry of its instructions in order. |
| SsaCollector.ExtractHandlers | static-analysis/ssapasses/collector/collector.go:61-98 | The loop over the packages computes the registry of every package matching the pattern, in package order. |
| SsaCollector.ReSlotsInRange | static-analysis/ssapasses/collector/collector.go:55 | Every handler recorded for a slot is a function of the program. |
| SsaCollector.ClassifyInRange | static-analysis/ssapasses/collector/collector.go:76-87 | Every handler of a recorded registration is a function of the program. |
| SsaCollector.ScanInRange | static-analysis/ssapasses/collector/collector.go:67-92 | The scan keeps every handler of the registry a function of the program. |
| SsaCollector.CollectInRange | static-analysis/ssapasses/collector/collector.go:61-98 | Every handler of the collected registry is a function of the program. |
| SsaCollector.Collector.constructor | static-analysis/ssapasses/collector/collector.go:124-130 | A new collector has the pattern, no program and an empty registry. |
| SsaCollector.Collector.CollectEntryPoints | static-analysis/ssapasses/collector/collector.go:100-110 | Stores the program and, on success, the registry of the pattern's packages. That registry names only functions of the program. |
| CollectorTestdata.PlainLiteralSlots | static-analysis/ssapasses/collector/testdata/testdata.go:55-59 | A plain handler literal that binds three functions to `AddFunc`, `UpdateFunc` and `DeleteFunc` yields exactly the three slots, each mapped to its function. |
| CollectorTestdata.ClassifyBody | static-analysis/ssapasses/collector/testdata/testdata.go:53-73 | Of the test package's instructions, only the two `AddEventHandler` calls are registrations. Both are recorded with the three slots. |
| CollectorTestdata.TestdataRegistry | static-analysis/ssapasses/collector/collector_test.go:11-24 | Collecting the test package succeeds with exactly two registrations. Each holds exactly the three slots. Nothing is unsupported. |
| AstCollector.ExtractHandler | static-analysis/analysispasses/collector/collector.go:38-50 | One element succeeds exactly when it is a key-value expression. It reports exactly one diagnostic and keeps the earlier ones. |
| AstCollector.ExtractAllSpec | static-analysis/analysispasses/collector/collector.go:66-72 | The elements succeed exactly when all are key-value expressions. The names collected are the selector names, in order, with one diagnostic per element. |
| AstCollector.SelectorNames | static-analysis/analysispasses/collector/collector.go:41-44 | A name is collected exactly when some key-value element's value selects it, and no more names are collected than there are elements. |
| AstCollector.ExtractElements | static-analysis/analysispasses/collector/collector.go:66-72 | The loop over the elements computes the extraction of all of them, stopping at the first panic. |
| AstCollector.VisitIgnored | static-analysis/analysispasses/collector/collector.go:53-58 | A call that is not a method call named `AddEventHandler` changes nothing. |
| AstCollector.VisitNotLiteral | static-analysis/analysispasses/collector/collector.go:59-63 | A registration whose argument is not a composite literal only reports the call. |
| AstCollector.VisitHandlers | static-analysis/analysispasses/collector/collector.go:52-78 | A successful visit appends exactly the selector names of the call's handler elements and keeps the earlier diagnostics. |
| AstCollector.FilteringTransparent | static-analysis/analysispasses/collector/collector.go:64-72 | A filtering handler contributes exactly the elements of the plain literal it wraps, as if that literal were registered directly. |
| AstCollector.VisitAllGrows | static-analysis/analysispasses/collector/collector.go:52-78 | Over the traversal, the handler list and the diagnostics only grow by appending. |
| AstCollector.Run | static-analysis/analysispasses/collector/collector.go:25-81 | The pass computes its result over the traversal. A package whose path ends in `.test` yields nothing. |
| AstCollector.TestdataResult | static-analysis/analysispasses/collector/testdata/testdata.go:20-43 | For the test package, each registration reports the call and its three bound methods, and the pass collects the three names twice. |

## Left out

- Loading and building the program (`packages.Load`, `ssautil.AllPackages`, `Build`) is left out. `CollectEntryPoints` receives the built program as a parameter. A load error (`log.Fatal`) is not modelled.
- The SSA builder is left out. The graph's instructions, printed forms and referrer lists are inputs. `Ssa.WellFormed` states the builder guarantees that the model relies on.
- Method sets are inputs. Each package's declared types carry their value and pointer method lists (`MethodSets.MethodSet`, `MethodValue`).
- The analysis framework's inspector is an input. The pass receives the preorder list of call expressions. Diagnostic positions are omitted, and `Reportf` becomes an appended `Diagnostic`.
- Printing is left out. The tracker returns the endpoints instead of printing them, and the final `fmt.Println(len(handlers))` and the separator lines are omitted.
- The queue library is modelled as a sequence.
- WrittenMembers.FindWrittenMembers: keeps a visited set, which the source does not have. With mutually recursive scheduler methods the source loops forever, while the model visits each function once. Both reach the same written set when the source terminates.
- Taint.TrackReadPointWithinMethod: takes a `fuel` bound on dequeues, which the source does not have. The source may loop forever on recursive callees. Its completeness promise holds only when `complete` is true.
- Taint.TrackReadPointWithinMethod: states only which endpoints are reported, not their order. The order follows Go's map iteration over the seeds when their referrers are queued (static-analysis/ssapasses/tracker/tracker.go:113), and repetitions, such as an allocation queued by two different stores, are not specified. `Taint.Dequeue` and `Taint.TrackBinding` state that each turn only appends endpoints.
- Taint.TrackReadPointWithinMethod: returns its taint set instead of growing the caller's map in place. The source's aliasing of the seed map is not modelled.
- A followed call without a static callee: the source queues a nil function and panics when it dequeues it. The model reports the panic when it scans the call. The overall outcome is the same: the phase fails.
- Tracker.TrackSingleEntryPoint: its completeness holds only when the returned flag says no guard was hit, since Phase C carries a `fuel` bound. Its endpoints are stated as a set: their order and repetitions are not specified.
- Taint.TrackReadPointWithinMethod: its completeness is stated for plain seeds only (neither allocations nor field addresses). Read points, parameters and free variables are the only seeds the tracker passes.
- Taint.TrackReadPointWithinMethod: the lower bound binds a formal when its actual is the value being followed. The formals of other actuals that happen to be tainted when the call is dequeued depend on the dequeue order. They are only bounded above, by the closed pairs.
- `Ssa.WellFormed` assumes two further builder guarantees: every referrer of a value uses it as an operand, and parameters and free variables are plain values.
- Tracker.Tracker.constructor: requires a collector that already holds a program. The source dereferences that program in `generateMethodMap` and would panic without one.
- Go's panic messages are approximated by short strings. Only the fact that a panic happens is modelled.
- The SSA test package in `CollectorTestdata` omits the printed forms that the collector never reads, and the functions it never looks into.
- static-analysis/analysispasses/tracker/tracker.go, static-analysis/analysispasses/addcheck/addcheck.go and static-analysis/main.go are not part of this model.

# Network control verification

This project models the decision logic of an intent-driven 5G network controller and proves properties of it:

- the **semantic environment compiler**, which derives an executable scenario from a keyed design, and the
  **independent validator** that a scenario has to pass;
- the **draft and the tools** that an agent calls, in any order, to submit, compile, revise, validate, write and
  simulate an environment;
- the **monitor, the intent lifecycles and the watch loop**, which turn SLA alerts into replans under a rate limit;
- **policy compilation, batch dispatch, assurance and the commit gate**;
- the **simulator reset protocol**, a polled loop with bounded recovery and a deadline;
- the **partition of experiments among workers and the merge** of their results;
- **text chunking** for embedding and the **breadth-first closure** of type definitions.

## How it is modelled

Values are datatypes and functions. Objects that the program mutates are classes whose methods are proved against
functions of their state: `IntentLifecycleManager`, `AutonomousWatchLoop`, `ScenarioDraftStore`, `EnvironmentTools`,
`PolicyBatchExecutor` and `Controller`. Loops are methods with invariants. Paths (`Paths`, `OutputPaths`) are lists of
segments, read from texts and resolved. Bandwidths, ratios and averages are reals.
A JSON value is a datatype (`Documents.Json`) whose mappings have the keys the program reads (`Documents.Field`; any
other key is `Other`). Text operations (`Strings`) are functions on sequences of characters.

What comes from outside is a parameter: the interpreter's `str`, `float` and `int` on values (`Documents.Python`); the
answers of the orchestrator, the gateway and the reset endpoints; the clock; rounding; schema validation; the scenario
root. Answers are functions of the call number, so every theorem holds whatever they are.

Two devices recur. *Exactness*: where a promise of the code holds only under a condition, the condition is one that can
be checked on the input, an equivalence says that the promise holds exactly then, and a concrete input shows how it
fails. *Dormant facts* (`Hiding`): a fact written as `forall k: nat {:trigger Asked(k)} :: Asked(k) ==> fact` is passed
around without the verifier looking inside it, until a lemma asserts `Asked(0)`.

## Where the code falls short of a promise

- A compiled design validates exactly if UPF, gNB and UE names differ after stripping, slice pairs `(sst, lower(sd))`
  differ, preferred gNB names are trimmed, access points have no leading blank, three runtime entries are present,
  and the guarantees fit targets, allocations and capacities (`DesignProperties.CompilerExact`). One blank behind a
  gNB's name spoils an accepted design (`DesignExamples.BlankSpoils`).
- The slices of a compiled candidate are told apart by the labels that the compiler reports exactly when no two slices
  share sst and lower-case sd, which acceptance does not ask for (`DesignMetrics.SliceMetricsRecovered`).
- `apply_revision` keeps the entities it does not list exactly if they agree with the last one of their key
  (`Revision.FrameExact`, `Revision.FrameFailsOnRepeatedKeys`).
- An entity patch that passes the stable-id guard can still erase the id: the guard compares `str(value)`, the lookup
  reads `str(value or "")` (`Draft.PatchKeepsIdsExactly`, `Draft.PatchCanLoseId`).
- The files of a compiled candidate are written one over the other for some scenario ids. They stay apart, under every
  scenario root and output directory, exactly when the id is relative and the directories in it climb not at all, or
  climb one level and descend again (`OutputPaths.ApartExactly`). With the id `../x` the scenario of a valid candidate
  is not on disk after it was written (`WriteExamples.ClimbingIdLost`).
- The overlay's reference leads to its scenario exactly when no backslash is on the way, since backslashes are written
  as slashes (`OutputPaths.OverlayFindsScenarioExactly`).
- A monitor replan that raises leaves its lifecycle replanning, and iterations that return normally can leave it so: only
  an alert that reaches the lifecycle takes it out of that state. None is replanning after an iteration that returns
  exactly if its alerts reach every lifecycle that was (`ReplanSafety.NoneReplanningExactly`), and none ever is between
  the iterations of a run exactly if no monitor replan raised (`ReplanSafety.NeverReplanningExactly`);
  `ReplanSafety.ReplanningSticks` is a run that shows the failure.
- Monitor intent ids join fields with `:`; the id of a binding is its own exactly when none of its fields holds a colon
  (`LifecycleSpec.MonitorIdExactly`, `LifecycleSpec.MonitorIdAmbiguous`).
- A slice requested as a mapping is written with a hexadecimal sst, the compiled flow with a decimal one; they agree
  exactly below ten (`Snssai.CompiledTextMatchesExactly`). S-NSSAI is defined in clause 28.4.2 of 3GPP TS 23.003.
- `_json_friendly` is idempotent exactly when no enumeration member carries a value that is not JSON
  (`PolicyCompiler.IdempotentExactly`, `PolicyCompiler.TupleEnumNotIdempotent`).
- Merged elapsed averages weigh workers by all their rows, measured or not. They are right for all times exactly when
  all workers with rows measured the same fraction of them (`ElapsedMerge.ElapsedExactly`,
  `ElapsedMerge.AgentElapsedExactly`); otherwise they can be off by half (`WorkerMerge.ElapsedAverageFails`).

## Model

| member | source | states |
|---|---|---|
| `DesignProperties.CompilerExact` | src/environment/design.py:283-420 | the candidate compiled from an accepted design validates if and only if that design, in whatever order it lists its entities, is sound: distinct stripped names and slice pairs, trimmed preferred names, access points without leading blank, runtime entries present, guarantees within targets, allocations and capacities |
| `ReferenceCorrectness.CompiledIsValidExactly` | src/environment/compiler.py:95-146 | the same equivalence for any plan with unique keys and resolved references, over all checks of the validator |
| `CompilerCorrectness.IdentifiersExact` | src/environment/compiler.py:236-255 | the identifier checks pass on a compiled plan exactly when slice pairs differ and UPF, gNB and UE names are nonblank and distinct after stripping; supis, app ids and flow ids never collide |
| `CompilerCorrectness.LoaderExact` | src/environment/compiler.py:159-233 | the loader contract passes exactly when the three runtime entries are there |
| `CompilerCorrectness.SlaExact` | src/environment/compiler.py:443-498 | the SLA checks pass exactly when every flow has its guarantees within its targets and its allocation |
| `CompilerCorrectness.CapacityExact` | src/environment/compiler.py:501-539 | the capacity check passes exactly when, slice by slice, the guarantees promised by the flows fit |
| `ReferenceCorrectness.ReferencesExact` | src/environment/compiler.py:258-365 | all references of a compiled plan resolve, exactly when preferred gNB names are trimmed |
| `ReferenceCorrectness.CrossExact` | src/environment/compiler.py:368-440 | the cross-entity contract holds on a compiled plan exactly when no access point has a leading blank |
| `CompilerCorrectness.LabelInjective` | src/environment/design.py:300-306 | two slices have the same label exactly when sst and lower-case sd agree |
| `CompilerCorrectness.NumbersInjective` | src/environment/design.py:307-330 | derived supis, app ids and flow ids determine the position they are derived from |
| `DesignReordering.OrderIrrelevant` | src/environment/design.py:511-520 | permuting the entity lists of a design changes neither its acceptance nor its candidate |
| `DesignReordering.SoundReordered` | src/environment/design.py:511-520 | reordering the entity lists of a design changes nothing about its soundness |
| `DesignExamples.SmallestValidExactly` | src/environment/compiler.py:276-318 | a design with one entity of each kind is accepted under any scenario id and gNB name, and validates exactly if that name is nonempty and trimmed |
| `DesignExamples.PlainNameValidates` | src/environment/compiler.py:95-146 | an accepted design whose candidate validates |
| `DesignExamples.BlankSpoils` | src/environment/compiler.py:276-318 | an accepted design whose candidate does not, for a blank behind the name of a preferred gNB |
| `DesignMetrics.FlowMetricsRecovered` | src/environment/design.py:564-596 | for every flow key, the reported flow id belongs to exactly one compiled flow, and that one holds the traffic, 5QI, allocation and SLA values authored under the key |
| `DesignMetrics.SliceMetricsRecovered` | src/environment/design.py:300-306 | for every slice key, the reported label belongs to exactly one compiled slice, and that one holds the authored resource and QoS values, if and only if slice pairs differ |
| `DesignProperties.SessionTakesBestFlow` | src/environment/design.py:533-562 | every session of a UE belongs to an app of that UE and takes its 5QI from a flow of minimal priority value among that app's flows on that slice |
| `DesignCompilation.Compile` | src/environment/design.py:283-420 | compilation succeeds exactly on complete designs of a sound catalog, and returns the candidate and the derived identifiers of the plan in catalog order |
| `DesignCompilation.ValidateCatalog` | src/environment/design.py:267-281 | no error exactly when, in every section, keys are distinct, nonblank and as many as expected |
| `DesignCompilation.ValidateDesignCompleteness` | src/environment/design.py:443-499 | no error exactly when sections match the catalog, references are declared, every flow's slice is served by the gNB its UE attaches to, and no app or UE is idle |
| `DesignCompilation.CheckReferences` | src/environment/design.py:501-508 | no error exactly when every reference is among the declared keys |
| `DesignCompilation.CompileSessions` | src/environment/design.py:533-562 | the loops over apps and flows give each UE the sessions of its apps, in plan order |
| `DesignCompilation.GroupBySlice` | src/environment/design.py:544-547 | grouping by slice keeps the order of first use and the flows of each slice |
| `DesignCompilation.MinByPriority` | src/environment/design.py:548-550 | the first flow of minimal priority value |
| `DesignCompilation.PlanAccepted` | src/environment/design.py:299-330 | the plan of an accepted design has unique keys and resolved references, serves every flow and leaves nobody idle |
| `DesignCompilation.PlanArranged` | src/environment/design.py:511-520 | the plan holds exactly the entities of the design, in catalog order |
| `Revision.ApplyRevision` | src/environment/design.py:213-265 | a revision applies exactly when its replacements have distinct known keys and it changes something; the result is the merged design |
| `Revision.ReplaceInSection` | src/environment/design.py:229-254 | one section: errors for repeated or unknown keys, and otherwise each entity replaced in place |
| `Revision.FrameExact` | src/environment/design.py:244-254 | entities that are not listed stay as they are, if and only if each agrees with the last entity of its key |
| `Revision.FrameFailsOnRepeatedKeys` | src/environment/design.py:244-254 | with repeated keys an entity that is not listed can change |
| `Revision.SectionRevised` | src/environment/design.py:229-254 | on unique keys the key sequence stays, omitted entities stay, and every listed entity equals its replacement |
| `Revision.RevisionIdempotent` | src/environment/design.py:213-265 | applying the same revision again applies and changes nothing |
| `Validator.ValidateCandidate` | src/environment/compiler.py:95-146 | the validating loops report nothing exactly when all structural conditions hold |
| `Validator.ValidateRootFields` | src/environment/compiler.py:148-157 | root fields present and collections are lists |
| `Validator.ValidateLoaderContract` | src/environment/compiler.py:159-233 | no error exactly when slices, UEs and runtime meet the loader contract |
| `Validator.CollectUniqueStrings` | src/environment/compiler.py:236-255 | the identifiers collected, and no error exactly when each entry has one and none repeats |
| `Validator.ValidateGnbs` | src/environment/compiler.py:258-274 | no error exactly when advertised slices and backhauls exist |
| `Validator.ValidateUes` | src/environment/compiler.py:276-318 | no error exactly when gNB, target, preferred and session references exist and the attached gNB advertises every session slice |
| `Validator.ValidateApps` | src/environment/compiler.py:320-340 | no error exactly when UE, supi and flow references exist |
| `Validator.ValidateFlows` | src/environment/compiler.py:342-365 | no error exactly when app, slice, UE and supi references exist |
| `Validator.ValidateCrossEntityContract` | src/environment/compiler.py:368-440 | no error exactly when flows find their app, UE and session, apps list exactly their flows, and session references are the derived ones |
| `Validator.ValidateSlaContract` | src/environment/compiler.py:443-498 | no error exactly when SLA fields are finite and non-negative, priorities positive integers, and guarantees within targets and allocations |
| `Validator.ValidateCapacity` | src/environment/compiler.py:501-539 | no error exactly when the sums by slice fit the capacities |
| `Validator.SumRequests` | src/environment/compiler.py:516-528 | the running totals are, for each slice, the sums of the guarantees of its flows in both directions |
| `Validator.ValidateOverlay` | src/environment/compiler.py:607-618 | no error exactly when there is no overlay or it has its fields and mappings |
| `ValidatorSoundness.AcceptedFlowsAreWired` | src/environment/compiler.py:367-440 | in an accepted candidate a flow with app and UE has exactly one such app and UE with its supi, a session of its app, slice and reference, and, if the UE names a gNB, a gNB advertising that slice |
| `ValidatorSoundness.AcceptedGuaranteesFit` | src/environment/compiler.py:500-539 | in an accepted candidate the guarantees of all flows of a slice sum to at most its capacity in both directions |
| `Draft.SplitRoundTrip` | src/environment/tools.py:588-605 | splitting a candidate into the nine sections and assembling them gives the candidate back |
| `Draft.ScenarioDraftStore.Initialize` | src/environment/draft.py:41-49 | metadata with its four fields starts the draft afresh without evidence; anything else changes nothing |
| `Draft.ScenarioDraftStore.ReplaceSection` | src/environment/draft.py:51-63 | a section can be replaced if it is completed already or next in order; the evidence is dropped |
| `Draft.ScenarioDraftStore.NextSection` | src/environment/draft.py:65-69 | the first section that is not completed |
| `Draft.ScenarioDraftStore.PatchEntity` | src/environment/draft.py:71-87 | exactly the first entity of that id is updated and the evidence dropped, or nothing changes |
| `Draft.ScenarioDraftStore.AssembleCandidate` | src/environment/draft.py:99-120 | a candidate exactly when all sections are there and can be spread |
| `Draft.PatchKeepsIdsExactly` | src/environment/draft.py:79-85 | a patch that passes the guard keeps every id exactly unless it writes a falsy id over a nonempty one |
| `Draft.PatchCanLoseId` | src/environment/draft.py:79-85 | a patch with the number zero passes the guard and erases the id "0" |
| `Tools.EnvironmentTools.Session` | src/environment/tools.py:461-1056 | over every sequence of tool calls the workflow invariant holds, and every simulation starts from a validated candidate written from the draft as it is, compiled from an accepted design in semantic mode; it is on disk exactly if its own files do not coincide, which safe scenario ids guarantee |
| `Tools.EnvironmentTools.SubmitCatalog` | src/environment/tools.py:461-526 | an accepted catalog drops the design, the report and the compilation; a refused one changes nothing |
| `Tools.EnvironmentTools.CompileDesign` | src/environment/tools.py:540-714 | compilation succeeds exactly when the submitted catalog accepts the design and its candidate validates |
| `Tools.EnvironmentTools.ReviseDesign` | src/environment/tools.py:716-762 | a revision that does not apply changes nothing; the merged design of one that applies is stored in any case, and compiles exactly if the catalog accepts it and its candidate validates |
| `Tools.EnvironmentTools.ReplaceDraftSection` | src/environment/tools.py:764-777 | a section can be replaced exactly if it is completed or next; that drops the evidence and discharges the duty to replace it |
| `Tools.EnvironmentTools.PatchDraftEntity` | src/environment/tools.py:779-807 | a patch succeeds exactly if the section need not be replaced as a whole and lists such an entity; the first one is updated and the evidence dropped |
| `Tools.EnvironmentTools.Validate` | src/environment/tools.py:813-865 | validation passes exactly when the draft as it is assembles to a good candidate |
| `Tools.EnvironmentTools.Write` | src/environment/tools.py:867-966 | files are written exactly from a validated draft with nothing foreign in the way; no existing file is replaced but the tools' own and a graph file of the scenario's name |
| `Tools.EnvironmentTools.Simulate` | src/environment/tools.py:968-998 | the guards are passed exactly with a recorded path (and a successful compilation), and then the path is where the current candidate was written |
| `Tools.DepositOnDisk` | src/environment/tools.py:906-942 | after the writes the overlay is on disk as written, and the scenario exactly if neither graph nor overlay took its place |
| `Tools.GraphOverwritesScenario` | src/environment/tools.py:907-915 | a graph file at the scenario's path leaves the graph there, which is never the scenario |
| `Tools.CompiledKeptExactly` | src/environment/tools.py:885-942 | a compiled scenario is kept exactly if its graph path and its overlay path differ from its own |
| `OutputPaths.ApartExactly` | src/environment/tools.py:885-911 | these paths differ under every scenario root and output directory if and only if the scenario id is relative and its directories climb not at all, or one level and down again |
| `OutputPaths.GraphCoincidesExactly` | src/environment/tools.py:907-911 | the graph file is the scenario file exactly when the id climbs one level more than it descends, or reaches the root |
| `OutputPaths.PlainIdSafe` | src/environment/tools.py:886-887 | an id without slashes is safe |
| `OutputPaths.ReportApart` | src/environment/tools.py:902-902 | the report never takes the path of the scenario or the overlay |
| `OutputPaths.ResolveCandidateOutputDir` | src/environment/tools.py:116-127 | the search for the longest overlap of the requested directory with the root |
| `OutputPaths.OverlayFindsScenarioExactly` | src/environment/tools.py:930-935 | read from the overlay's directory, its reference resolves to the scenario file exactly when no backslash is on the way |
| `WriteExamples.ClimbingIdLost` | src/environment/tools.py:885-942 | with the id `../x` the scenario of an accepted, valid design is not on disk once written, whatever the directory |
| `WriteExamples.ClimbingIdCoincides` | src/environment/design.py:407-407 | with the id `../x` the compiled graph file is the scenario file, wherever it is written |
| `LifecycleSpec.MonitorIdInjective` | src/control_runtime/monitoring/lifecycle.py:69-69 | monitor ids determine the binding when the first two fields hold no colon |
| `LifecycleSpec.MonitorIdAmbiguous` | src/control_runtime/monitoring/lifecycle.py:69-69 | without that proviso two bindings share an id |
| `LifecycleSpec.MonitorIdExactly` | src/control_runtime/monitoring/lifecycle.py:69-69 | no other binding has the id of a binding, if and only if none of its three fields holds a colon |
| `LifecycleSpec.MonitorIdFresh` | src/control_runtime/monitoring/lifecycle.py:66-74 | an unowned binding finds its monitor id unused, so no lifecycle is overwritten |
| `LifecycleSpec.ObserveSound` | src/control_runtime/monitoring/lifecycle.py:38-83 | observe keeps every lifecycle, schedules exactly the bindings that need it, each once and with its owner, and leaves the owner of every alerting binding degraded or failed |
| `LifecycleSpec.ObserveOwners` | src/control_runtime/monitoring/lifecycle.py:52-83 | observe changes for no binding whether its owner failed |
| `WatchLoopSpec.OneReplanPerEpisode` | src/control_runtime/monitoring/lifecycle.py:44-89 | in every run, between two replans of a binding some observation saw it without an alert |
| `WatchLoopSpec.RunTracked` | src/control_runtime/monitoring/lifecycle.py:44-89 | the set of replanned bindings is what the history of calls amounts to, and no replan begins for a member of it |
| `WatchLoopSpec.RunSafe` | src/control_runtime/monitoring/watch_loop.py:71-208 | over every run with fresh session ids no lifecycle is lost or overwritten and failed ones stay failed |
| `WatchLoopSpec.RunOnceSafe` | src/control_runtime/monitoring/watch_loop.py:71-208 | one iteration overwrites no lifecycle and revives no failed one; if none was replanning before and it returns normally, none is after |
| `ReplanSafety.StillReplanningExactly` | src/control_runtime/monitoring/lifecycle.py:52-83 | an iteration that returns normally leaves exactly those lifecycles replanning that were and that own no binding of an alert that is not skipped |
| `ReplanSafety.NoneReplanningExactly` | src/control_runtime/monitoring/watch_loop.py:71-208 | after an iteration that returns normally none is replanning, if and only if its alerts reach every lifecycle that was replanning before |
| `ReplanSafety.RaisedLeavesReplanning` | src/control_runtime/monitoring/watch_loop.py:184-194 | an iteration whose monitor replan raised always leaves a lifecycle replanning |
| `ReplanSafety.NeverReplanningExactly` | src/control_runtime/monitoring/watch_loop.py:71-208 | over a run with fresh session ids no lifecycle is replanning between iterations, if and only if no monitor replan raised |
| `ReplanSafety.RunNoneReplanning` | src/control_runtime/monitoring/watch_loop.py:71-208 | if no monitor replan raised, no lifecycle is replanning at the end of the run |
| `ReplanSafety.ReplanningSticks` | src/control_runtime/monitoring/lifecycle.py:55-89 | a run of two iterations: the first raises in a replan, the second returns normally, and a lifecycle is replanning |
| `WatchLoopSpec.HandleAllInv` | src/control_runtime/monitoring/watch_loop.py:162-208 | at most the limit of replans is started, an action is replanned, failed or deferred, and deferrals only happen at the limit |
| `WatchLoopSpec.Progress` | src/control_runtime/monitoring/watch_loop.py:147-208 | an iteration that returns lowers the number of pending bindings by the limit, or to zero |
| `WatchLoopSpec.SteadyProgress` | src/control_runtime/monitoring/watch_loop.py:147-208 | with constant alerts, k iterations of limit L leave at most n - kL of n pending bindings |
| `WatchLoopSpec.DeferralsEnd` | src/control_runtime/monitoring/watch_loop.py:147-208 | with constant alerts deferrals are empty from iteration ceil(n / L) on |
| `LifecycleManager.IntentLifecycleManager.RecordInitial` | src/control_runtime/monitoring/lifecycle.py:16-36 | the new object is stored as the value machine says |
| `LifecycleManager.IntentLifecycleManager.Observe` | src/control_runtime/monitoring/lifecycle.py:38-83 | the mutating loops agree with the value machine, and the actions hold the very objects that it names |
| `LifecycleManager.IntentLifecycleManager.LifecycleForBinding` | src/control_runtime/monitoring/lifecycle.py:100-104 | the newest stored owner of a binding |
| `LifecycleManager.IntentLifecycleManager.BeginReplan` | src/control_runtime/monitoring/lifecycle.py:85-89 | marks the binding and the stored lifecycle |
| `LifecycleManager.IntentLifecycleManager.FinishReplan` | src/control_runtime/monitoring/lifecycle.py:91-94 | active or failed by the result |
| `LifecycleManager.AutonomousWatchLoop.HandleMonitorAlerts` | src/control_runtime/monitoring/watch_loop.py:147-208 | the loop over actions, with lifecycles changing under it, agrees with the value machine |
| `LifecycleManager.AutonomousWatchLoop.RunOnce` | src/control_runtime/monitoring/watch_loop.py:71-127 | one iteration agrees with the value machine, raising included |
| `LifecycleManager.RaisedSticks` | src/control_runtime/monitoring/watch_loop.py:184-194 | once the orchestrator has raised, no further action has an effect |
| `FlowMonitor.EvaluateFlowNode` | src/control_runtime/monitoring/flow_monitor.py:163-210 | the two loops compute the violated metrics and the largest deviation |
| `FlowMonitor.AlertExactly` | src/control_runtime/monitoring/flow_monitor.py:71-76 | an alert lists exactly the violated metrics, and its severity follows from their number and deviations |
| `FlowMonitor.RatioBeyond` | src/control_runtime/monitoring/flow_monitor.py:177-201 | a violated metric deviates by more than the tolerance |
| `FlowMonitor.EvaluateSnapshot` | src/control_runtime/monitoring/flow_monitor.py:91-152 | all flow nodes are scanned, or the nodes derived from the apps if there are none, and the ranked alerts are cut at the limit |
| `FlowMonitor.ReadingsLatest` | src/control_runtime/monitoring/flow_monitor.py:40-54 | the reading of a metric is the value of its last sample for that owner |
| `FlowMonitor.TruncationKeepsSevere` | src/control_runtime/monitoring/flow_monitor.py:145-146 | alerts come in non-increasing severity, so that cutting drops none that is more severe than a kept one |
| `FlowMonitor.AlertsMatchFlows` | src/control_runtime/monitoring/flow_monitor.py:99-143 | before cutting there is one alert per violating flow, in order |
| `FlowMonitor.WordsRank` | src/control_runtime/monitoring/flow_monitor.py:71-76 | the alphabetical order of the severity words is their order of severity |
| `PolicyCompiler.FriendlyExactly` | src/control_runtime/execution/policy_compiler.py:15-28 | conversion yields a JSON value exactly when no enumeration member hides another kind of value |
| `PolicyCompiler.IdempotentExactly` | src/control_runtime/execution/policy_compiler.py:15-28 | converting twice is converting once exactly under the same condition |
| `PolicyCompiler.TupleEnumNotIdempotent` | src/control_runtime/execution/policy_compiler.py:18-19 | an enumeration member with a tuple value is a counterexample |
| `PolicyCompiler.CompilesExactly` | src/control_runtime/execution/policy_compiler.py:111-149 | a policy compiles exactly when its own stripped reading passes both rounds of checks |
| `PolicyCompiler.CompileIdempotent` | src/control_runtime/execution/policy_compiler.py:111-149 | compiling a compiled policy returns it |
| `PolicyCompiler.CompiledExecutable` | src/control_runtime/execution/policy_compiler.py:151-215 | a compiled policy has every entry that dispatch reads, and a flow-scoped one its canonical id |
| `PolicyCompiler.PlanExecutable` | src/control_runtime/execution/policy_compiler.py:217-228 | a compiled plan is nonempty, in payload order, and can be dispatched |
| `PolicyCompiler.PlanIdempotent` | src/control_runtime/execution/policy_compiler.py:96-109 | a compiled plan, submitted again, compiles to itself |
| `AssuranceEvaluator.Evaluate` | src/control_runtime/execution/assurance_evaluator.py:46-143 | raises exactly for a flow-scoped policy without a snapshot listing its flow; otherwise skips or judges the first matching flow |
| `AssuranceEvaluator.FindFlow` | src/control_runtime/execution/assurance_evaluator.py:75-90 | the first flow, in document order, of that subscriber and id |
| `Snssai.SnssaiInjective` | src/control_runtime/execution/policy_batch_executor.py:69-80 | the mapping form of an S-NSSAI is encoded injectively, for every integer sst |
| `Snssai.HexIsDecimalExactly` | src/control_runtime/execution/policy_batch_executor.py:79-79 | hexadecimal and decimal sst texts agree exactly below ten |
| `Snssai.CompiledTextMatchesExactly` | src/environment/design.py:591-591 | a slice requested as a mapping, its sd in either case, matches the compiled text of the same slice exactly when sst is below ten |
| `PolicyBatch.AckedExactly` | src/control_runtime/execution/policy_batch_executor.py:140-209 | a dispatch counts as applied exactly when the gateway acknowledged it and the flow is on the requested slice |
| `PolicyBatch.AppliedExactly` | src/control_runtime/execution/policy_batch_executor.py:281-362 | a policy leaves no failure exactly when it is acknowledged, on its slice and, if flow-scoped, shown satisfied by valid evidence |
| `PolicyBatch.BatchAccounting` | src/control_runtime/execution/policy_batch_executor.py:269-375 | one receipt and one attempt per policy in order; assurance results and dispatch failures add up to the policies |
| `PolicyBatch.NoFailuresExactly` | src/control_runtime/execution/policy_batch_executor.py:269-375 | no failure exactly when every policy was applied |
| `PolicyBatch.PolicyBatchExecutor.DispatchSinglePolicy` | src/control_runtime/execution/policy_batch_executor.py:140-209 | one request per policy, and the outcome by status, phase and slice |
| `PolicyBatch.PolicyBatchExecutor.JudgeApplied` | src/control_runtime/execution/policy_batch_executor.py:337-344 | the evaluator is only asked about policies that it skips, so it does not raise |
| `PolicyBatch.PolicyBatchExecutor.Run` | src/control_runtime/execution/policy_batch_executor.py:269-375 | each policy is sent once, in order, and the batch is the fold of what each contributes |
| `ExecutionController.ClassifyExactly` | src/control_runtime/execution/execution_controller.py:168-175 | success is all applied; partial success is some dispatched, not all applied, and none dispatched without its assurance |
| `ExecutionController.FailureExactly` | src/control_runtime/execution/execution_controller.py:82-97 | the failure scope is the one domain of all failed policies or mixed, and retrying is forbidden exactly when some policy was left waiting |
| `ExecutionController.Controller.Execute` | src/control_runtime/execution/execution_controller.py:99-232 | the whole plan is committed, once, exactly when every policy of it was applied |
| `ExecutionController.CommitNamesSubscriber` | src/control_runtime/execution/execution_controller.py:204-210 | what is committed names a subscriber |
| `Reset.SuccessExactly` | experiments/scripts/common.py:132-213 | success exactly when a reset stands accepted and both payloads of the same iteration are ready |
| `Reset.StandingSince` | experiments/scripts/common.py:135-152 | a standing reset was accepted by some POST and neither given up nor followed by a POST since |
| `Reset.PostNeedsRecovery` | experiments/scripts/common.py:237-255 | after an accepted POST another is only sent after a recovery decision: 503 with a missing process, no active reset, grace over, fewer than three POSTs |
| `Reset.AtMostTwoRecoveries` | experiments/scripts/common.py:220-255 | at most two recovery decisions in any run |
| `Reset.EndsInTime` | experiments/scripts/common.py:257-264 | with a monotone clock the loop ends within ceil(timeout) + 1 iterations |
| `Reset.ResetSimulatorState` | experiments/scripts/common.py:114-264 | the loop ends in the state that the step machine reaches |
| `Partition.PartitionCaseRanges` | experiments/scripts/launch_experiments.py:320-332 | ranges follow one another, cover all cases and differ in size by at most one |
| `Partition.PartitionTaskIds` | experiments/scripts/launch_experiments.py:335-355 | the lists concatenate to the input and differ in size by at most one |
| `Merge.SummarizeRunResults` | experiments/scripts/run_workflow_experiment.py:171-272 | the counting loop agrees with sums, filters and histograms over the rows |
| `Merge.HistogramIs` | experiments/scripts/run_workflow_experiment.py:179-187 | a histogram has exactly the values that occur, each with the number of its rows |
| `Merge.HistogramAppend` | experiments/scripts/launch_experiments.py:432-445 | adding the histograms of two parts gives the histogram of the whole |
| `Merge.OrderedUnique` | experiments/scripts/launch_experiments.py:398-398 | rows with distinct record indices have one ordered arrangement |
| `WorkerMerge.MergeWorkerResults` | experiments/scripts/launch_experiments.py:374-449 | the merging loops agree with the merge function; an empty result set is refused |
| `WorkerMerge.MergeIsSequential` | experiments/scripts/launch_experiments.py:393-449 | for every distribution and order of the rows of one run, merged rows, counts, rates and histograms are those of that run |
| `WorkerMerge.CompletionOrder` | experiments/scripts/launch_experiments.py:393-398 | the order in which workers finish does not change the rows together |
| `WorkerMerge.PartitionedMerge` | experiments/scripts/launch_experiments.py:393-445 | workers with consecutive shares, finishing in any order, merge to the sequential run, with its totals, counts, rates, histograms and cases |
| `WorkerMerge.RoundAndRetryAverages` | experiments/scripts/launch_experiments.py:426-431 | merged averages of rounds and retries are within 0.0001 of the exact ones, for any number of workers |
| `WorkerMerge.ElapsedAverageFails` | experiments/scripts/launch_experiments.py:426-431 | two workers, one of them unmeasured, merge to half of what one run reports |
| `WorkerShares.RangesMerge` | experiments/scripts/launch_experiments.py:645-656 | workers given the ranges of a partition, finishing in any order and skipped when they have none, merge to the run over all the cases |
| `WorkerShares.TasksMerge` | experiments/scripts/launch_experiments.py:645-656 | workers given the parts of a task list, in whatever order it names the tasks, merge to the run over these tasks in file order |
| `WorkerShares.SkippedExactly` | experiments/scripts/launch_experiments.py:686-688 | a worker has no records exactly when it was given no tasks |
| `ElapsedMerge.ElapsedExactly` | experiments/scripts/launch_experiments.py:415-431 | under any rounding, the merged wall-clock average is that of all measured rows, up to two roundings and for every choice of times, if and only if all workers with rows measured the same fraction of them |
| `ElapsedMerge.AgentElapsedExactly` | experiments/scripts/launch_experiments.py:415-431 | the same of the agents' time |
| `ElapsedMerge.EvenElapsedAverages` | experiments/scripts/launch_experiments.py:415-431 | evenly measured workers merge to within 0.0001 of the exact averages |
| `ElapsedMerge.UnevenIsOff` | experiments/scripts/launch_experiments.py:415-431 | otherwise there are times for which the merge is off by one or more |
| `Chunking.SplitOversizedText` | knowledge_build/scripts/build_pcf_policy_kb.py:578-609 | every chunk fits and has text, and together they are the text but for whitespace |
| `Chunking.ChunksGood` | knowledge_build/scripts/build_pcf_policy_kb.py:578-609 | the same for the chunking function, which yields no chunk exactly for blank text |
| `Chunking.PartsErase` | knowledge_build/scripts/build_pcf_policy_kb.py:585-591 | whichever of the four fallbacks splits the text, the parts hold it in order but for whitespace |
| `Chunking.PackAllGood` | knowledge_build/scripts/build_pcf_policy_kb.py:593-608 | packing keeps the parts in order and every chunk within the length |
| `Chunking.NormalizeRecordsForEmbedding` | knowledge_build/scripts/build_pcf_policy_kb.py:1181-1191 | the records of each text, in order |
| `Chunking.NormalizeAgain` | knowledge_build/scripts/build_pcf_policy_kb.py:1181-1191 | normalizing again keeps the number of records, ids and metadata and strips contents |
| `Chunking.NormalizeSettles` | knowledge_build/scripts/build_pcf_policy_kb.py:1181-1191 | from the second time on normalizing changes nothing |
| `Chunking.RecordsKeepText` | knowledge_build/scripts/build_pcf_policy_kb.py:612-625 | the records of one text carry that text in order, but for whitespace |
| `Closure.ResolveClosure` | model/extract_pcf_am_policy_models.py:223-243 | exactly the reachable types, each once, root first, in non-decreasing distance, never looking up a missing name |
| `Closure.TypeRefs` | model/extract_pcf_am_policy_models.py:211-220 | exactly the other types that the definition mentions |
| `Closure.ExtractRefs` | model/extract_pcf_am_policy_models.py:203-208 | the type names among the tokens, each once, by first occurrence |

## Left out

- The S3 quality profile and minimum counts: predicates of the candidate and of the catalog's counts, easy checks.
- Error texts, warnings, logs, records of the watch loop, repair plans and guidance: only whether there is an error, and which kind where a caller branches on it.
- Floating-point rounding and non-finite numbers in designs, telemetry and SLA arithmetic: reals; a number that is not finite is kept apart (`NotFinite`) where the validator looks for it, and read as absent elsewhere.
- Validator.ValidateCandidate: a value that is iterated although it is no list, text or falsy, and `int()` of an infinite sst, raise in the program and count as one more error here; iterating over the keys of a mapping counts so too.
- Validator: the loops return their errors to the caller, which joins them; the program appends to one shared list.
- Design: lookups by an unknown key, which would raise, return an empty entity; acceptance rules them out.
- Tools.EnvironmentTools.Write: symbolic links, other writers of the same files, directories in place of files and failing writes; paths have slashes, and the scenario root is absolute.
- Tools: the nodes and links of a graph document and the design report are given; only that the graph is a mapping without the scenario's name matters.
- Strings.Lower: lower-casing is of ASCII letters; other capitals in ids and texts stay as they are.
- Tools: listing specifications, the runtime reference, inspection, feedback and read-back do not change the state and are left out; launching the simulator ends at its guards.
- PolicyCompiler: mappings with keys that are no text, and schema classes, which are predicates on the details object.
- Reset.ResetSimulatorState: time-outs of single requests; the clock readings that decide something are part of each round, and termination needs a clock that does not go back and sleeps that take their time.
- AssuranceEvaluator.Evaluate: a list of apps or flows that cannot be iterated raises in the program and counts as empty here.
- WatchLoopSpec: thread pools and snapshot resolution; one iteration gets its user request and its alerts as values, and a raise of the monitor is not modelled.
- FlowMonitor: hashing of alert ids, flow names and time stamps; `nodes`, `metrics`, `apps` or `flows` that cannot be iterated, and properties that are no mapping, raise in the program and count as empty here.
- Merge: breakdowns by error type and status code, which the merge drops, and file names; what makes a row correct or misjudged is given with the row.
- Chunking.SplitOversizedText: separators are whitespace runs with two line feeds, with a line boundary, or after a sentence end; the length limit is a parameter of at least one.
- Closure.ResolveClosure: tokenizing type expressions and parsing definitions; the tokens of an expression are given.
- Model-driven agents, prompts, HTTP, databases, YAML, plotting, command lines and slot locking.

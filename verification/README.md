# Verified model of the agent graph runtime and its run server

The project models, in Dafny, four connected parts of the repository and proves what they promise.

1. **The superstep engine** (`Engine`, `EngineSpec`, `Branches`, `Schedules`, `Ledgers`, `Merging`, `Reducers`,
   `AgentStates`, `CheckpointStore`, `Routing`). A frontier of nodes runs on forks of the state with bounded
   parallelism; the branches finish in any order; their changes are folded back key by key through
   reducers; the next frontier is computed and deduplicated. Around every node stands a retry family,
   and around the run a checkpoint store. `EngineSpec` says without schedules what a run computes
   (`After(env, start, n)` is the state and frontier after `n` supersteps); the class `GraphExecutor`
   follows the source step by step and is proved against it for every schedule, every moment of
   cancellation and every failure of the store.
2. **The static analysis of specifications** (`GraphSpecs`, `DeclaredWrites`, `Closure`, `Chains`, `Budgets`) and its
   soundness for the engine (`Compiling`, `Following`, `Frontiers`, `Races`, `RaceLimits`, `BudgetLimits`,
   `ChainRuns`, `Runs`): the write-conflict check, the recogniser of resumable chains and the node budget are proved against
   mathematical definitions, and these against the runs of the compiled graph.
3. **One-shot checkpoints** (`ResumeStores`, `PersistentStores`, `Registries`, `RunManagers`,
   `Decisions`, `RegistryRules`, `ResumeProtocol`, `ResumeChecks`, `ResumeThreads`, `ResumeExamples`): transactions on checkpoint and approval rows, the bounded registry of runs, and
   the protocol by which any number of clients start, checkpoint and resume runs, interleaved
   transaction by transaction and lock section by lock section, across restarts.
4. **The in-memory attempt store** with its two copies (`CheckpointStore`, `TwoCopies`) and the **join
   strategies** (`Joins`, `JoinRules`).

Objects the source changes in place are classes whose methods have the source's loops and branches
(`GraphExecutor`, `AgentState`, `StateTransaction`, `InMemoryCheckpointStore`, `PersistentStore`,
`RunManager`). Each method is proved against a function of the old state, and the theorems about whole
runs are lemmas about these functions. Nodes and routers are arbitrary functions of the state (a node
also of the retry ordinal), JSON is a datatype with real numbers and the rounding to doubles a parameter of
the reducer that adds, hashes and keyed hashes are arbitrary functions, and a database transaction or a
lock section is one step.

## What the code does not promise

Some properties hold only under a condition; the model has the condition, and a lemma with a concrete
input where it fails.

- The write-conflict check alone does not exclude races. It lets two writers share a superstep if one
  also follows the other (`Races.OrderedNodesShareLevel`), and the merge then depends on the order of the
  branches (`ShortcutRaces`). It also lets them share one, even in a chain, if a node named `__start__`
  leads back to the entry (`RaceLimits.BackLooksSafe`, `BackRaces`, `BackRuns`). In accepted specifications
  without a node of that name whose entry walks to a node have one length it does not happen, if nodes
  navigate within the edges (`Races.RaceFreedom`). With such a node, where every edge is followed and all
  entry walks to it have one length, two writers share a superstep exactly if they end entry walks whose
  levels agree modulo that length (`RaceLimits.RacesIff`, `RunRacesIff`, `AgreeIsModulo`; for chains
  `ChainSharing`); without that, exactly if one of the frontiers told from the specification holds both
  (`RunRacesIffActual`).
- A node that declares one key twice counts as two writers: without a reducer for the key it is rejected
  as a conflict with itself exactly if it has an incoming edge and is on no cycle
  (`GraphSpecs.SelfConflict`, `DeclaredTwice`).
- Node names `__start__` and `__end__` pass validation, and a compiled graph gives a node named `__start__`
  an edge to the entry. Any node of that name can make the node budget unsound: the entry, exactly if an
  edge leads from it to a node (`BudgetLimits.EntryStartExcess`, `StartNameBreaksBudget`), and a later node,
  exactly if running it brings the entry into a frontier that the limit counts without it
  (`LaterStartExcess`, `LaterStartBreaksBudget`, `MiddleRuns`; both for nodes that leave navigation to the
  edges, the second without a node named `__end__`). In general the condition is that the actual frontiers outgrow the
  conservative ones (`BudgetExceededIff`, `ExcessIsReal`, `BudgetFailsIff`).
- An eligible chain never finishes if a node named `__start__` comes before any named `__end__`
  (`ChainRuns.NeverFinishes`, `ThroughStartLoops`), and otherwise stops before the first node named
  `__end__` (`ChainRun`, `ThroughEndIsCutOff`); `ChainFinishes` is the exact condition.
- Forking and merging with the append reducer repeats the stored items (`Accumulations.AppendPresent`,
  `AppendRepeats`), and wraps or keeps single first values differently from appending in sequence
  (`AppendAbsent`, `AppendWraps`).
- Adding doubles depends on the order of the branches (`Reducers.AddOrderMatters`, `NearestMeetsIt`); whole numbers whose
  magnitudes add up to at most 2^53 do not (`AddFoldPermutation`).
- If an unknown node of a frontier is due, the branches in flight are not drained before the superstep
  returns: some are left exactly if the node is not the first of the frontier and two branches may run at
  once (`Engine.GraphExecutor.RunBranches`, `LeftBehind`, and a run in `Engine.UnknownNodeLeavesBranch`);
  after every other failure none is left.
- A commit whose working copy is over the limits reports success and drops its writes; this needs a state
  that was created over its limits (`Transactions.CommitDropsWritesOverLimits`, `CommitNeverDropsWrites`).
- A late interrupt overwrites the status of a completed run (`TwoCopies.InterruptReopensCompletedRun`);
  nothing else changes the status of a run that has ended (`EndedStatusChanges`, `EndedRunStays`).
- Checkpoint cursors of 2^63 and more are accepted and make the checkpoint unreadable
  (`ResumeStores.RowsPassChecks`, `BigCursorIsStuck`).
- An approval asked for between the status query of a resume and the consumption does not stop the resume
  (`ResumeProtocol.ConsumesIffUnspent`, `LateApprovalIgnored`, and a behaviour in
  `ResumeExamples.LateApproval`).
- A resumed run can be lost after its admission: if its execution row cannot be updated, the checkpoint is
  consumed, the record stays running without a thread, and its slot is taken until a restart
  (`ResumeThreads.StrandedIff`, `RunningHaveThreads`, and a behaviour in `ResumeExamples.Stranded`).
- The deep merge is associative only on compatible triples (`Reducers.MergeAssociative`, `MergeNotAssociative`).
- Two claims that differ only in being a string or another value that prints the same are not reported as
  a contradiction (`Joins.UnnoticedClaims`, `EmptyMatrix`, `StringTrueUnnoticed`); the documentation of the matrix does not
  mention this.

## Model

| member | source | states |
|---|---|---|
| Reducers.Append | agent-graph/src/reducer.rs:23-48 | the appended array is the stored items (null counting as none) followed by what the update contributes (null counting as an item) |
| Reducers.ReduceMerge | agent-graph/src/reducer.rs:85-106 | the recursive loop that merges objects gives one result for every order in which the fields are visited |
| Reducers.AppendFold | agent-graph/src/reducer.rs:23-48 | folding any non-empty list of updates from any base gives the base's items followed by all updates concatenated |
| Reducers.AddFold | agent-graph/src/reducer.rs:57-80 | folding additions succeeds exactly if every update is a number with a double nearest to it and the base is a number or null; the rounding to doubles is a parameter |
| Reducers.AddFoldExact | agent-graph/src/reducer.rs:57-80 | whole numbers whose magnitudes add up to at most 2^53 are added exactly |
| Reducers.AddFoldPermutation | agent-graph/src/reducer.rs:57-80 | so permuting such updates does not change the folded sum |
| Reducers.AddOrderMatters | agent-graph/src/reducer.rs:57-80 | three numbers whose sum depends on the order, because 2^53 + 1 is not a double |
| Reducers.NearestMeetsIt | agent-graph/src/reducer.rs:57-80 | rounding to even beyond 2^53 is such a rounding |
| Reducers.MergeIdempotent | agent-graph/src/reducer.rs:85-106 | a deep merge of a value with itself changes nothing |
| Reducers.MergeIdentity | agent-graph/src/reducer.rs:85-106 | the empty object is a left and right identity of the deep merge on objects |
| Reducers.MergeAbsorbs | agent-graph/src/reducer.rs:85-106 | a merge leaves the update as it is exactly if the update covers every object path of the old value |
| Reducers.MergeAssociative | agent-graph/src/reducer.rs:85-106 | the deep merge of three values is associative exactly if no path holds an object, then something else, then an object that lacks part of the first |
| Reducers.MergeNotAssociative | agent-graph/src/reducer.rs:85-106 | three concrete values for which it is not associative |
| Reducers.MergeFold | agent-graph/src/reducer.rs:85-106 | folding deep merges never fails, and the last update is found in the result as a whole |
| Reducers.FnReduces | agent-graph/src/reducer.rs:125-132 | a reducer that is a function gets the stored value first and the new one second |
| AgentStates.AgentState.Set | agent-graph/src/state.rs:216-237 | a write goes through exactly if the value and what the registered reducer makes of it fit and there is room for a new key; the state then holds the reduced value (without reducer or old value the value itself) and has a new version, otherwise nothing changes |
| AgentStates.AgentState.SetRaw | agent-graph/src/state.rs:240-246 | the same without consulting the reducers: accepted exactly within max_value_bytes and max_keys |
| AgentStates.AgentState.Remove | agent-graph/src/state.rs:288-299 | the key is gone; the version changes exactly if it was there |
| AgentStates.AgentState.Fork | agent-graph/src/state.rs:366-375 | the fork has its own data and shares the reducer table |
| AgentStates.AgentState.SaveToHistory | agent-graph/src/state.rs:322-330 | the data is appended to the history; a full history loses its oldest entry |
| AgentStates.AgentState.ReplaceData | agent-graph/src/state.rs:425-435 | data over the limits is rejected silently, other data replaces the state and changes the version |
| AgentStates.AgentState.Restore | agent-graph/src/state.rs:333-335 | restoring a snapshot behaves like replacing the data |
| AgentStates.AgentState.RegisterReducer | agent-graph/src/state.rs:172-181 | the shared table gets the reducer under the key |
| AgentStates.StateTransaction.Set | agent-graph/src/state.rs:61-79 | a staged write acts on the working copy as a direct write would on the state |
| AgentStates.StateTransaction.Commit | agent-graph/src/state.rs:85-97 | fails without effect if the version moved on, otherwise replaces the data, and ends the transaction |
| AgentStates.SetKeepsLimits | agent-graph/src/state.rs:394-409 | a write that is accepted keeps the number of keys and the sizes within the limits |
| AgentStates.InsertAllKeepsLimits | agent-graph/src/state.rs:394-409 | a batch of accepted inserts keeps the limits whatever the order of the keys |
| Transactions.CommitRefinesDirectSets | agent-graph/src/state.rs:61-97 | over any interleaving a commit succeeds exactly if nothing was written since the transaction began; it then leaves what the staged writes done directly would leave, if that is within the limits, and a failed commit changes nothing |
| Transactions.CommitIsDirect | agent-graph/src/state.rs:61-97 | end to end: from a state within the limits, beginning, staging any sets and committing leaves the data that writing the sets directly leaves |
| Transactions.DirectOutcome | agent-graph/src/state.rs:216-299 | what direct writes, raw writes, removals and restores do in these runs: exactly those that change the state give it a new version |
| Transactions.CommitNeverDropsWrites | agent-graph/src/state.rs:425-451 | from a state within the limits every operation keeps them, so the silent rejection never happens in a commit |
| Transactions.FirstCommitterWins | agent-graph/src/state.rs:85-97 | of two transactions on one version the second commit fails once the first has succeeded |
| Transactions.CommitDropsWritesOverLimits | agent-graph/src/state.rs:85-97 | a state created over its limits: the commit reports success and drops the writes |
| Transactions.RunConsistent | agent-graph/src/state.rs:85-97 | in every run the version tells whether the data changed |
| Transactions.RunBounded | agent-graph/src/state.rs:394-451 | in every run the state and all working copies stay within the limits |
| Merging.CollectChanges | agent-graph/src/engine.rs:810-827 | the first loop lists for every key the changed values in branch order |
| Merging.FoldValues | agent-graph/src/engine.rs:829-834 | the inner loop folds them through the key's reducer |
| Merging.MergeParallelStates | agent-graph/src/engine.rs:805-838 | for every order in which the keys are visited the merge succeeds for the same inputs and leaves the same state |
| Merging.MergeAt | agent-graph/src/engine.rs:829-836 | a key nobody changed keeps its value, a changed one holds the fold of the changed values into the snapshot's value, without reducer the last one |
| Merging.MergeKeepsLimits | agent-graph/src/engine.rs:829-836 | the merge keeps the limits |
| Accumulations.MergeOfAppends | agent-graph/src/engine.rs:810-835 | merging branches that append gives the stored items and then, for every branch that changes the key, the stored items again with what it appends |
| Accumulations.AppendPresent | agent-graph/src/engine.rs:810-835 | for a key that is present this equals appending in sequence exactly if nothing is stored or no branch changes the key |
| Accumulations.AppendAbsent | agent-graph/src/engine.rs:810-835 | for an absent key they agree exactly if the first update is an array, or there is a second update and the first is not null |
| Accumulations.AppendRepeats | agent-graph/src/engine.rs:810-835 | an input for the first: the merge of one branch repeats the stored item |
| Accumulations.AppendWraps | agent-graph/src/engine.rs:810-835 | and for the second: a first single value is wrapped by the merge and kept as it is in sequence |
| Accumulations.SetStores | agent-graph/src/state.rs:216-237 | an accepted write of a key with an appending reducer stores what these comparisons assume, and nothing else |
| Accumulations.SetBranches | agent-graph/src/engine.rs:848-860 | so branches that each set the key once on their own fork are the branches compared |
| Accumulations.SetsInSequence | agent-graph/src/state.rs:216-237 | and setting the updates one after the other leaves what the sequence compared leaves |
| Sorting.SortPermutation | agent-graph/src/engine.rs:534-541 | a stable sort by a key that tells the results apart does not depend on the order they finished in |
| Sorting.PickPermutes | agent-graph/src/engine.rs:449-532 | distinct positions that exhaust a sequence select a permutation of it |
| EngineSpec.FamilyTrials | agent-graph/src/engine.rs:1070-1276 | a retry family is trials 0, 1, ..: before the last all fail with an error the policy retries and attempts left, the last succeeds or there is no policy, no attempt left or the error is not retried, and then its error is the one returned; the number of trials is at most max(1, max_attempts), so running out of retries is never reached otherwise |
| EngineSpec.UpdatesReachState | agent-graph/src/engine.rs:1143-1152 | after a trial that succeeds every key of its command's updates holds what writing the value yields, the others keep theirs, and the output is handed on |
| EngineSpec.UpdatesRejected | agent-graph/src/engine.rs:1143-1170 | the updates are rejected exactly if one cannot be written or there are too many keys |
| Routing.RoutesInOrder | agent-graph/src/engine.rs:785-802 | the targets of a list of edges are those of every edge in order, for a router what it answers, and the error is that of the first router that fails |
| Routing.OutputLeads | agent-graph/src/engine.rs:771-782 | a command leads where it says, to the nodes it sends to in order, or to the end; everything else follows the edges |
| Routing.BranchesLead | agent-graph/src/engine.rs:546-549 | the targets of a superstep are those of its branches, in branch order, and there are some exactly if all branches resolve |
| Routing.DropEndKeepsOrder | agent-graph/src/engine.rs:355 | removing the end keeps the order of the other names |
| Routing.DedupKeepsOrder | agent-graph/src/engine.rs:628-630 | deduplication lists the names in the order in which they first occur |
| EngineSpec.FrontierOrder | agent-graph/src/engine.rs:534-541 | for a duplicate-free frontier sorting restores frontier order |
| EngineSpec.AnyCompletionOrder | agent-graph/src/engine.rs:449-550 | whatever order the branches finish in, sorting, merging and resolving give the outcome of running each node on the snapshot in frontier order |
| EngineSpec.FinishesOnce | agent-graph/src/engine.rs:355-359 | a run is finished after at most one number of supersteps |
| EngineSpec.FrontierNoDup | agent-graph/src/engine.rs:628-634 | every frontier after the first is duplicate-free and without the end |
| Branches.EndKeepsStore | agent-graph/src/engine.rs:1172-1214 | ending an attempt takes it, and no other, off the attempts that are still running, in both copies |
| Branches.TrialLogAt | agent-graph/src/engine.rs:1105-1237 | a complete log is trial after trial, each with its start and then its end, and nothing else |
| Schedules.AllJoined | agent-graph/src/engine.rs:449-532 | when nothing is pending or in flight the results are a rearrangement of what the frontier yields on the snapshot |
| Schedules.SpawnKeepsInv | agent-graph/src/engine.rs:449-462 | spawning a branch keeps the scheduler's invariant: at most max_parallelism branches in flight, every position spawned once, each from the same snapshot |
| Schedules.BranchGoesOn | agent-graph/src/engine.rs:463-466 | a step of a branch that is not finished keeps the scheduler's invariant and brings the branch closer to its end |
| Schedules.BranchJoins | agent-graph/src/engine.rs:467-529 | joining a branch that succeeded keeps it and adds the result of its family |
| Schedules.BranchFails | agent-graph/src/engine.rs:470-502 | a branch that failed means that it was disturbed or that its node fails on the snapshot; its siblings are told to abort |
| Schedules.BranchDrained | agent-graph/src/engine.rs:476-477 | joining an aborted sibling takes it out of flight; the attempt it was in may stay open in the store |
| Schedules.BranchRunsOn | agent-graph/src/engine.rs:471-477 | before that a sibling may take further steps, which start no more trials than it had left |
| Schedules.DropHalts | agent-graph/src/engine.rs:457 | after a spawn that failed the branches in flight are told to abort but not waited for: they are still in flight |
| Ledgers.StepLedger | agent-graph/src/engine.rs:1092-1276 | however the branches interleave, a step of one family keeps its own attempts and log settled and leaves those of its siblings as they were |
| Ledgers.LedgerDone | agent-graph/src/engine.rs:449-532 | when all branches have joined, every trial has one start and one end, and every family's stored attempts are failed except a final completed one |
| Engine.GraphExecutor.BeginTrial | agent-graph/src/engine.rs:1092-1131 | a trial is announced, counted and its attempt recorded with the state it meets, unless it is cancelled, as it is if and only if the flag is up by then, or the store fails, and then there is one |
| Engine.GraphExecutor.EndTrial | agent-graph/src/engine.rs:1172-1214 | the attempt is closed as the trial ended, and the family goes on, retries or stops |
| Engine.ApplyUpdates | agent-graph/src/engine.rs:1143-1152 | the updates of a command are all stored or one of them is rejected, in any order of the keys alike, with one write counted for each that is stored |
| Engine.GraphExecutor.RunFamily | agent-graph/src/engine.rs:1070-1276 | the sequential family has the specified result; undisturbed its log lacks only the report of the last end, and the stored attempts are failed except a final completed one, with the final state as its output, exactly if it succeeds; the version moves by the number of writes, and a cancellation needs a raised flag |
| Engine.GraphExecutor.DrainBranches | agent-graph/src/engine.rs:476-477 | after a failure every sibling is joined, in any order and after any further steps, so none is left |
| Engine.GraphExecutor.SpawnNext | agent-graph/src/engine.rs:457-530 | the next position is spawned with a fork of the state, or its node is unknown and the set is dropped with the branches that are in flight |
| Engine.GraphExecutor.RunBranches | agent-graph/src/engine.rs:449-532 | in every schedule: the results are those of running each node on the snapshot, the main state is untouched, at most max(1, max_parallelism) branches run at once and, if all nodes are known, at some moment that many or all do, each position is spawned once on success, nothing is spawned after giving up; no branch is left when it returns, in particular if all nodes are known, except when the first unknown node is due, at position p: then min(p, max_parallelism - 1) are; one among the first max_parallelism positions is always reported; on success every family has one start and end per trial and failed attempts with a final completed one, shared with no other family |
| Engine.GraphExecutor.LeftBehind | agent-graph/src/engine.rs:457-530 | so branches are left exactly if the unknown node is not the first and two may run at once |
| Engine.UnknownNodeLeavesBranch | agent-graph/src/engine.rs:455-457 | a run of a concrete graph and frontier that leaves one |
| Engine.GraphExecutor.GetEdgeTargets | agent-graph/src/engine.rs:785-802 | the targets of all edges in order, or the first router error |
| Engine.GraphExecutor.Resolve | agent-graph/src/engine.rs:771-782 | edges for a default outcome, otherwise what the command says |
| Engine.GraphExecutor.ExecuteSingle | agent-graph/src/engine.rs:641-768 | one node runs on the main state as specified; undisturbed every trial has one start and one end, and the attempts are settled; the error is that of its last trial, of the state or of a router |
| Engine.GraphExecutor.ExecuteParallel | agent-graph/src/engine.rs:449-550 | in every schedule the merged state and the ordered targets are those of the specification, a failing branch leaves the main state as it was, and branches are left only by an unknown node, as many as above; undisturbed, the error is that of a failing node, the first unknown node, the merge or a router |
| Engine.GraphExecutor.ExecuteSuperstep | agent-graph/src/engine.rs:381-626 | an interrupt before stops the run before any node starts, one after with the state the superstep leaves, each at the first such node and, with a store, with that state saved; otherwise the superstep is the specified one or fails with the error of a node, of a missing node, of the merge or of a router |
| Engine.GraphExecutor.Deduplicate | agent-graph/src/engine.rs:628-630 | keeps the first occurrence of every name |
| Engine.GraphExecutor.FindInterrupt | agent-graph/src/engine.rs:390-429 | finds the first frontier node with an interrupt if there is one |
| Engine.GraphExecutor.ExecuteInner | agent-graph/src/engine.rs:341-638 | the loop computes the sequence of states and frontiers, takes at most recursion_limit and at most max_iterations supersteps, never reports a cycle, reports the iteration limit, with the smaller of the two, only if the run is not finished there, and starts no more trials than the supersteps allow; any other undisturbed error is an interrupt or failure of the superstep it stopped at, and if the flag is up from the start nothing runs |
| Engine.GraphExecutor.Execute | agent-graph/src/engine.rs:282-339 | if it succeeds with a store then no store call failed, the stored run is completed, no attempt of it is still running and, if a superstep ran, the saved snapshot is the returned state |
| CheckpointStore.InMemoryCheckpointStore.Record | agent-graph/src/checkpoint_store.rs:270-308 | an attempt enters the map, running and with its input, and the run's vector |
| CheckpointStore.InMemoryCheckpointStore.End | agent-graph/src/checkpoint_store.rs:310-400 | the attempt is completed with its output, failed with its error or interrupted, in both copies, the vector's first one with that id |
| CheckpointStore.InMemoryCheckpointStore.EndRun | agent-graph/src/checkpoint_store.rs:426-461 | succeeds exactly if the run is known and still running |
| CheckpointStore.InMemoryCheckpointStore.SaveStateSnapshot | agent-graph/src/checkpoint_store.rs:402-416 | the run holds the snapshot; an unknown run is ignored |
| TwoCopies.CopiesAgree | agent-graph/src/checkpoint_store.rs:270-461 | with the map and vector updates as separate steps: an attempt nobody is writing has exactly one copy in its known run's vector, equal to the map's record, and complete_run and fail_run together succeed at most once per run |
| TwoCopies.EndedStatusChanges | agent-graph/src/checkpoint_store.rs:310-461 | a step changes the status of a run that has ended exactly if it finishes an interrupt of one of its attempts and the run is not interrupted yet |
| TwoCopies.EndedRunStays | agent-graph/src/checkpoint_store.rs:310-461 | in every interleaving a run that has ended keeps its status until such an interrupt is finished, and is interrupted from then on |
| TwoCopies.InterruptReopensCompletedRun | agent-graph/src/checkpoint_store.rs:373-400 | an input: a late interrupt overwrites the status of a completed run |
| Closure.ViaReaches | agent-graph-mcp/src/spec.rs:356-362 | the relation the triple loop builds up, once all nodes are allowed in between, is the existence of a non-empty path |
| Closure.Warshall | agent-graph-mcp/src/spec.rs:356-362 | the loop that overwrites its matrix computes exactly that relation |
| GraphSpecs.ReachMatrix | agent-graph-mcp/src/spec.rs:344-362 | the matrix of direct edges, closed in place, says which node reaches which |
| GraphSpecs.CollectWriters | agent-graph-mcp/src/spec.rs:364-398 | lists for every key the writing nodes in order, a node once for every declared write |
| GraphSpecs.WritersSorted | agent-graph-mcp/src/spec.rs:395-398 | two entries of a key's list are two writers, or one node that declares the key twice |
| GraphSpecs.PairListed | agent-graph-mcp/src/spec.rs:395-398 | and every such pair stands at two positions of the list |
| GraphSpecs.CheckKey | agent-graph-mcp/src/spec.rs:399-421 | finds a clashing pair of one key's list if there is one |
| GraphSpecs.ValidateStateWriteConflicts | agent-graph-mcp/src/spec.rs:343-423 | rejects exactly if some pair of writers of a key without reducer is unordered and has a common ancestor other than the two |
| GraphSpecs.OrderedWritersPass | agent-graph-mcp/src/spec.rs:407-409 | writers of which one follows the other never conflict, in whatever order they are declared |
| GraphSpecs.SelfConflict | agent-graph-mcp/src/spec.rs:395-421 | a node conflicts with itself exactly if it declares a key without reducer twice, has an incoming edge and is on no cycle |
| GraphSpecs.DeclaredTwice | agent-graph-mcp/src/spec.rs:395-421 | a concrete graph that is rejected for that |
| DeclaredWrites.WriteKeysExact | agent-graph-mcp/src/spec.rs:364-394 | the keys a node declares: a non-empty output key of a model, an approval or a subgraph, the paths of a transform's operations, each as often as it occurs, and the output of a join; other nodes declare none |
| DeclaredWrites.PairDeclared | agent-graph-mcp/src/spec.rs:395-402 | two entries of a key's list of writers, said with the configurations |
| DeclaredWrites.ForkConflicts | agent-graph-mcp/src/spec.rs:343-423 | two nodes that an entry leads to conflict exactly if both declare a key or one declares a key twice, whatever their configurations |
| DeclaredWrites.KindsThatConflict | agent-graph-mcp/src/spec.rs:364-394 | concrete nodes of every pair of kinds: they conflict exactly if both are of the five kinds that write |
| GraphSpecs.ValidNames | agent-graph-mcp/src/spec.rs:685-691 | a valid name has 1 to 64 letters, digits, underscores, dots or hyphens |
| GraphSpecs.Validate | agent-graph-mcp/src/spec.rs:298-341 | accepts exactly the well-formed specifications without such a conflict: among others 1 to 128 nodes, at most 512 edges, 1 to 64 iterations and 1 to 32 parallel branches |
| Chains.ChainUnique | agent-graph-mcp/src/spec.rs:211-286 | a graph has at most one chain |
| Chains.NoRevisit | agent-graph-mcp/src/spec.rs:249-254 | with one predecessor per node and none for the entry the walk never comes back |
| Chains.CheckSuccessors | agent-graph-mcp/src/spec.rs:228-236 | passes exactly if every node has one successor |
| Chains.CheckPredecessors | agent-graph-mcp/src/spec.rs:237-247 | passes exactly if the entry has no predecessor and every other node one |
| Chains.Walk | agent-graph-mcp/src/spec.rs:249-272 | the walk ends, the lookups succeed, and of its errors only the last can occur, namely if there is no chain |
| Chains.ResumeEligibility | agent-graph-mcp/src/spec.rs:152-286 | on a validated specification succeeds exactly if there are no reducers, all nodes are admissible and the edges form one path from the entry through every node once to END, and returns that path; the loop error and the unknown-successor error are unreachable |
| Chains.AdmissibleIsLocal | agent-graph-mcp/src/spec.rs:157-205 | a node is admissible exactly if it needs no evidence and passes the state on without a configuration or transforms it with operations only |
| Compiling.CompileEdges | agent-graph-mcp/src/compiler.rs:360-368 | the edges out of a node are its declared ones in order; the virtual start node also leads to the entry |
| Compiling.Compile | agent-graph-mcp/src/compiler.rs:38-378 | succeeds on a validated specification exactly if all node types are executable, and gives the graph with these nodes and edges |
| Following.FrontierWalk | agent-graph/src/engine.rs:349-372 | in a run that follows the edges every frontier node ends a walk from the entry as long as the number of supersteps |
| Following.StartIsList | agent-graph/src/engine.rs:342-346 | a run begins with the entry, or if that is named like the virtual start node with that node and its successors |
| Following.ContinueExact | agent-graph/src/engine.rs:785-802 | if nodes leave navigation to the edges, the next frontier is exactly the set of declared successors, and after a node named like the virtual start node also the entry |
| Following.RunIsExact | agent-graph/src/builder.rs:111-113 | so it is in every superstep of a compiled run, and all nodes that run are declared |
| Following.WithinFollowsEdges | agent-graph-mcp/src/compiler.rs:360-368 | if no node is named like the virtual start node and nodes leave navigation to the edges or name declared successors, the run follows the edges |
| Following.CompiledFollowsEdges | agent-graph-mcp/src/compiler.rs:360-368 | a compiled graph whose nodes leave navigation to the edges follows the edges exactly if its run begins with the entry alone and no superstep runs a node named like the virtual start node from where the entry is not a declared successor; always, if no node has that name |
| Following.WalkReached | agent-graph/src/engine.rs:628-634 | and every walk from the entry is then followed, as long as none of its nodes is named like the end |
| Races.RaceNeedsSharedLevel | agent-graph-mcp/src/spec.rs:399-421 | in a run that follows the edges two writers share a superstep only if they end entry walks of one length |
| Races.SharedLevelRaces | agent-graph-mcp/src/spec.rs:399-421 | and where every edge is followed such walks do meet in a superstep |
| Races.AcceptedLevelsApart | agent-graph-mcp/src/spec.rs:399-421 | in an accepted specification whose entry walks to a node all have one length, no two writers of a key without reducer end walks of one length |
| Races.RaceFreedom | agent-graph-mcp/src/spec.rs:343-423 | so, without a node named like the virtual start node, no reachable superstep of a compiled run whose nodes navigate within the edges contains two different nodes that declare the same key without reducer |
| Races.OneWriter | agent-graph/src/engine.rs:810-827 | a key that no two nodes of a frontier declare is changed by one branch at most |
| Races.SettledMergesAnyOrder | agent-graph/src/engine.rs:829-836 | so any order of the branches merges alike if that holds of the keys without reducer and the reducers fold the changed values alike in any order |
| Races.MergeAnyOrder | agent-graph/src/engine.rs:829-836 | if every key is changed by one branch at most or has a reducer that folds the changed values alike in any order, every permutation of the branches merges into the same state |
| Races.AcceptedMergesAnyOrder | agent-graph-mcp/src/spec.rs:343-423 | every superstep of an accepted, levelled specification without a node named like the virtual start node merges the same in any branch order, if nodes navigate within the edges and the reducers fold what the branches changed alike in any order |
| Races.CountersFoldAlike | agent-graph/src/reducer.rs:57-80 | addition folds whole numbers alike in any order as long as their magnitudes add up to at most 2^53 |
| Races.OrderedNodesShareLevel | agent-graph-mcp/src/spec.rs:399-421 | without the levels the check does not suffice: a concrete accepted graph whose ordered writers share a level |
| Races.ShortcutRaces | agent-graph/src/engine.rs:810-836 | and a run of it in which both writers stand in the second superstep and the merge keeps the value of the branch listed last |
| Races.ShortcutWritesAsDeclared | agent-graph-mcp/src/spec.rs:364-398 | whose nodes write only what they declare |
| RaceLimits.MeetIff | agent-graph/src/builder.rs:111-113 | where every edge is followed two nodes run in one superstep exactly if they end walks from the entry whose levels agree up to multiples of the length of the walks to a node named like the virtual start node, if those have one length |
| RaceLimits.AgreeIsModulo | agent-graph/src/builder.rs:111-113 | that is, modulo that length, or without such a node, if they are the same |
| RaceLimits.RacesIff | agent-graph-mcp/src/spec.rs:343-423 | so some superstep races on a key exactly if two different nodes that declare it end such walks |
| RaceLimits.RunRacesIffActual | agent-graph/src/engine.rs:810-836 | whatever the specification, a run that follows every edge and does not fail races on a key exactly if one of the frontiers told from the specification does |
| RaceLimits.RunRacesIff | agent-graph/src/engine.rs:810-836 | and if those walks have one length, exactly if two different nodes that declare the key end such walks |
| RaceLimits.RaceIsReal | agent-graph/src/engine.rs:810-836 | each such specification has such a run, through nodes that store nothing |
| RaceLimits.NoStartNoPeriod | agent-graph-mcp/src/spec.rs:685 | without a node named like the virtual start node only equal levels agree |
| RaceLimits.LevelledHasPeriod | agent-graph/src/builder.rs:111-113 | in a levelled specification all walks to such a node have one length |
| RaceLimits.BackLooksSafe | agent-graph-mcp/src/spec.rs:343-423 | a concrete chain that is accepted, levelled and eligible and whose writers are on different levels |
| RaceLimits.BackRaces | agent-graph/src/builder.rs:111-113 | but races in the third superstep of every run that follows its edges |
| RaceLimits.BackRuns | agent-graph/src/builder.rs:111-113 | and there is one |
| Budgets.NextFrontier | agent-graph-mcp/src/run_manager.rs:940-949 | the targets of all edges out of the frontier without END, each once |
| Budgets.BudgetIterationLimit | agent-graph-mcp/src/run_manager.rs:922-953 | the limit is the number of conservative frontiers that are non-empty and fit the budget together, at least one; the saturating additions never saturate on a validated specification |
| Budgets.AllowedUnique | agent-graph-mcp/src/run_manager.rs:929-952 | that number of frontiers is unique |
| Budgets.FrontierPossible | agent-graph-mcp/src/run_manager.rs:917-921 | the frontier of a run that follows the edges stays within the conservative one |
| Budgets.BudgetSound | agent-graph-mcp/src/run_manager.rs:917-953 | within the limit such a run executes at most max_nodes nodes, for every choice of edges and every cyclic graph |
| Budgets.BudgetCoversWork | agent-graph-mcp/src/run_manager.rs:917-953 | and starts at most max_nodes trials without retries, at most attempts times as many with them |
| Frontiers.FrontierActual | agent-graph/src/engine.rs:628-634 | where every edge is followed the frontiers of a run can be told from the specification, whatever its names |
| BudgetLimits.CountActual | agent-graph-mcp/src/run_manager.rs:917-953 | and so can the number of nodes it executes |
| BudgetLimits.BudgetExceededIff | agent-graph-mcp/src/run_manager.rs:922-953 | if no superstep fails, some budget is exceeded within its limit exactly if in some number of supersteps the actual frontiers are larger in total than the conservative ones |
| BudgetLimits.ExcessIsReal | agent-graph-mcp/src/run_manager.rs:922-953 | every specification with such an excess has a run, through nodes that store nothing, that exceeds a budget, and no other has |
| BudgetLimits.NoStartNoExcess | agent-graph-mcp/src/spec.rs:685 | without a node named like the virtual start node there is no excess |
| BudgetLimits.EntryStartExcess | agent-graph/src/builder.rs:111-113 | if the entry has that name there is one exactly if an edge leads from the entry to a node |
| BudgetLimits.WayBackAdds | agent-graph/src/builder.rs:111-113 | after a frontier with a node of that name the next one is the conservative one and the entry |
| BudgetLimits.LaterStartExcess | agent-graph/src/builder.rs:111-113 | if another node has that name there is an excess exactly if it stands in a conservative frontier after which, within the limit, the next one is not empty and lacks the entry |
| BudgetLimits.BudgetFailsIff | agent-graph-mcp/src/run_manager.rs:922-953 | so without a node named like the end a specification exceeds some budget, through nodes that store nothing, exactly if its entry is named like the virtual start node and has an edge to a node, or another node has that name and a step returns as above |
| BudgetLimits.BudgetLargest | agent-graph-mcp/src/run_manager.rs:917-953 | where every edge is followed one more superstep would exceed the budget, as long as the conservative frontier is not empty and the graph's own limit does not stop the run; without reserved names that frontier is empty exactly if the run is finished |
| BudgetLimits.StartNameBreaksBudget | agent-graph-mcp/src/run_manager.rs:922-953 | an entry named like the virtual start node exceeds a budget of one node in its first superstep |
| BudgetLimits.LaterStartBreaksBudget | agent-graph-mcp/src/run_manager.rs:922-953 | and a later node of that name a budget of three nodes in the third superstep |
| BudgetLimits.MiddleRuns | agent-graph-mcp/src/run_manager.rs:922-953 | in a run that exists |
| ChainRuns.ChainStep | agent-graph/src/engine.rs:444-448 | a chain node that succeeds leads to the next one alone, if it is not named like the virtual start node |
| ChainRuns.ChainRun | agent-graph/src/engine.rs:341-372 | if no node named like the virtual start node comes first, a chain visits its nodes once in order up to the first named like the end, is finished after exactly as many supersteps if they all succeed, and leaves the fold of the nodes |
| ChainRuns.ChainLevelled | agent-graph-mcp/src/spec.rs:211-286 | all entry walks to a node of a chain have one length, and no two of its nodes share a level |
| RaceLimits.ChainSharing | agent-graph/src/builder.rs:111-113 | two nodes of a chain share a superstep exactly if a node named like the virtual start node comes before any named like the end and their places agree modulo the number of nodes up to it |
| ChainRuns.NeverFinishes | agent-graph/src/builder.rs:111-113 | otherwise it never finishes |
| ChainRuns.ChainFinishes | agent-graph/src/engine.rs:341-372 | so an eligible chain finishes exactly if no node named like the virtual start node comes before the first named like the end, and the nodes before that succeed |
| ChainRuns.ThroughStartLoops | agent-graph/src/builder.rs:111-113 | a concrete eligible chain of the first kind |
| ChainRuns.ThroughStartTurns | agent-graph/src/builder.rs:111-113 | whose two nodes take turns for ever |
| ChainRuns.ThroughEndIsCutOff | agent-graph-mcp/src/compiler.rs:361-368 | and one that is finished before its second node, which is named like the end, would run |
| Runs.Execute | agent-graph-mcp/src/run_manager.rs:395-500 | compiling, deriving the limit and executing: what the outcome says about the run of the compiled graph; a limit that is not given is 64 supersteps, and 8 parallel branches |
| Runs.BudgetHolds | agent-graph-mcp/src/run_manager.rs:464-478 | the node budget holds for every run that follows the edges |
| Runs.RoutedBudgetHolds | agent-graph-mcp/src/run_manager.rs:464-478 | for every execution of a specification without a node named like the virtual start node whose nodes navigate within the edges |
| Runs.CompiledBudgetHolds | agent-graph-mcp/src/run_manager.rs:464-478 | and for every execution of one without an excess whose nodes leave navigation to the edges |
| Runs.ChainOutcome | agent-graph-mcp/src/run_manager.rs:395-500 | unless told to stop, an execution of a chain succeeds exactly if no node named like the virtual start node comes before the first named like the end, the nodes before that succeed and the limit is at least their number; it returns the folded state |
| ResumeStores.StepKeepsInv | agent-graph-mcp/src/store.rs:1264-1788 | every transaction keeps: valid seals, approvals bound to their checkpoint, a used-up checkpoint behind every approval that is no longer pending, one pending approval per audience and one decided per checkpoint |
| ResumeStores.StepIsFinal | agent-graph-mcp/src/store.rs:1423-1431 | a checkpoint row never changes except that it is used up once, and a decided or expired approval never changes |
| ResumeStores.TakingSpends | agent-graph-mcp/src/store.rs:1392-1438 | a consumption or decision succeeds only for a checkpoint that is not used up, and uses it up |
| ResumeStores.TakenOnce | agent-graph-mcp/src/store.rs:1646-1788 | in any history of any clients at most one consumption or decision succeeds per checkpoint |
| ResumeStores.NewestRowIsEnough | agent-graph-mcp/src/store.rs:1630-1644 | as long as the checkpoint is not used up, the newest approval row is pending, and so are all others: looking at one row is enough |
| ResumeStores.RowsPassChecks | agent-graph-mcp/src/store.rs:264-276 | rows written by these operations pass every seal check; the integrity errors that remain are a cursor that does not fit, a caller's wrong expectation and a deadline that is not a date |
| ResumeStores.BigCursorIsStuck | agent-graph-mcp/src/store.rs:1344-1345 | an input: a checkpoint with a cursor of 2^63 is created, and can never be loaded or consumed |
| ResumeStores.StaysUndecided | agent-graph-mcp/src/store.rs:1646-1788 | a checkpoint that was used up without a decision is never decided on |
| Decisions.LoadMeans | agent-graph-mcp/src/store.rs:264-276 | a row is accepted exactly if its cursors fit in 63 bits, its name is the one of its run and cursor, and its digests are those of what it holds |
| Decisions.CheckpointTampered | agent-graph-mcp/src/store.rs:242-276 | if the keyed hash tells contents apart, a valid checkpoint row that is changed below its seal is refused exactly if anything but the time of consumption changed |
| Decisions.ApprovalTampered | agent-graph-mcp/src/store.rs:366-395 | and a changed approval row always, its status and decision included |
| Decisions.CreateOutcome | agent-graph-mcp/src/store.rs:1264-1353 | a checkpoint is created exactly if its run has none for that cursor, as an unused row with what was saved, which can be loaded exactly if its cursors fit |
| Decisions.ConsumeOutcome | agent-graph-mcp/src/store.rs:1392-1438 | a checkpoint is consumed exactly if its row is accepted and unused, and only gets its time of consumption |
| Decisions.AskOutcome | agent-graph-mcp/src/store.rs:1442-1553 | a request for an approval succeeds exactly if it describes an unused checkpoint in every field and no pending approval for that audience asks something else; the answer asks what was requested and is the one there was or a new row |
| Decisions.DecideOutcome | agent-graph-mcp/src/store.rs:1646-1788 | a decision is accepted exactly if the approval is pending, now is before its deadline, the decision is allowed and the checkpoint unused; the row is then approved exactly for approve and rejected otherwise, names decision, actor and time, the checkpoint is used up, and no other row changes |
| Decisions.LateDecision | agent-graph-mcp/src/store.rs:1677-1719 | a decision after the deadline leaves the approval expired and undecided and the checkpoint used up |
| Decisions.DecideRefused | agent-graph-mcp/src/store.rs:1646-1788 | exactly when each other refusal is given; all but a late one change nothing |
| PersistentStores.PersistentStore.CreateResumeCheckpoint | agent-graph-mcp/src/store.rs:1264-1353 | inserts the sealed row, or fails without effect |
| PersistentStores.PersistentStore.ConsumeResumeCheckpoint | agent-graph-mcp/src/store.rs:1392-1438 | marks a valid unused row as consumed, or fails without effect |
| PersistentStores.PersistentStore.CreateCheckpointApproval | agent-graph-mcp/src/store.rs:1442-1553 | returns the pending approval of the same request, refuses a different one, or inserts a new row for an unused checkpoint |
| PersistentStores.PersistentStore.CheckpointApprovalStatus | agent-graph-mcp/src/store.rs:1630-1644 | the status of a newest approval row, none exactly if there is no row, or an error of the query |
| PersistentStores.PersistentStore.DecideCheckpointApproval | agent-graph-mcp/src/store.rs:1646-1788 | settles a pending approval in time with an allowed decision, approved exactly for approve and otherwise rejected, with who decided and when, and uses up its checkpoint, or marks a late one expired, in one transaction |
| Registries.StepKeepsOk | agent-graph-mcp/src/run_manager.rs:223-364 | running plus reserved slots stay within 8, retained runs within 100, the order list is duplicate-free with exactly the map's keys, and cancelled runs are not successful, for every operation that starts execution only after admission |
| Registries.InsertNeedsNewName | agent-graph-mcp/src/run_manager.rs:241-242 | an insertion keeps the order list duplicate-free exactly if the name is not retained any more |
| Registries.OnlyTerminalEvicted | agent-graph-mcp/src/run_manager.rs:226-240 | only runs that are over are evicted, and only at full retention |
| Registries.RetentionFullMeans | agent-graph-mcp/src/run_manager.rs:226-238 | an insertion is refused exactly if 100 runs are retained and none is over |
| Registries.BeginNeedsAdmission | agent-graph-mcp/src/run_manager.rs:405 | starting a run that was not admitted keeps the bound exactly if a slot was free |
| Registries.CancellationPrevails | agent-graph-mcp/src/run_manager.rs:679-697 | after a successful cancellation the record is never completed nor successful, for any interleaving with the final update and the error path |
| RegistryRules.FinalOutcome | agent-graph-mcp/src/run_manager.rs:898-915 | the final update completes exactly the runs without an error that nobody cancelled, fails those with one, cancels the cancelled, and only completed runs succeed |
| RegistryRules.AbortOutcome | agent-graph-mcp/src/run_manager.rs:731-737 | the error path fails the run and changes nothing else |
| RegistryRules.CancelOutcome | agent-graph-mcp/src/run_manager.rs:777-795 | exactly the accepted and running runs can be cancelled, which only raises the flag |
| RegistryRules.AdmitOutcome | agent-graph-mcp/src/run_manager.rs:308-327 | a run is admitted exactly if it is accepted and fewer than eight slots are in use, and then one more is |
| RegistryRules.ReservationOutcome | agent-graph-mcp/src/run_manager.rs:330-364 | reserving needs a free slot, giving back undoes it, and a run admitted on a reservation takes over its slot, so the number in use stays |
| RegistryRules.NeverOverbooked | agent-graph-mcp/src/run_manager.rs:223-364 | in every history at most eight slots are in use and at most a hundred runs are retained |
| RegistryRules.InsertOutcome | agent-graph-mcp/src/run_manager.rs:223-244 | a new record goes to the end of the order; at a hundred runs the first that is neither accepted nor running makes room, and the others keep their places |
| RegistryRules.RemoveOutcome | agent-graph-mcp/src/run_manager.rs:818-829 | removing takes out the record and its place and nothing else; a running run stays |
| RegistryRules.CheckpointOutcome | agent-graph-mcp/src/run_manager.rs:293-304 | a checkpointed run is over and names its checkpoint; a new record is accepted and not cancelled |
| RunManagers.RunManager.InsertRecord | agent-graph-mcp/src/run_manager.rs:223-244 | evicts the first run in order that is over if the registry is full, and appends the record |
| RunManagers.RunManager.AdmitAsync | agent-graph-mcp/src/run_manager.rs:308-327 | an accepted run becomes running if a slot is free |
| RunManagers.RunManager.ReserveAsyncSlot | agent-graph-mcp/src/run_manager.rs:330-344 | reserves a slot exactly if one is free |
| RunManagers.RunManager.ReleaseAsyncSlot | agent-graph-mcp/src/run_manager.rs:346-350 | returns a reservation, never going below zero |
| RunManagers.RunManager.AdmitReservedAsync | agent-graph-mcp/src/run_manager.rs:352-364 | turns a reservation into a running run |
| RunManagers.RunManager.Remove | agent-graph-mcp/src/run_manager.rs:818-829 | removes a record unless it is running |
| RunManagers.RunManager.Cancel | agent-graph-mcp/src/run_manager.rs:777-795 | sets the flag of a run that is not over |
| RunManagers.RunManager.FinishExecution | agent-graph-mcp/src/run_manager.rs:679-697 | the final update, in which a cancellation takes precedence over an error |
| RunManagers.RunManager.FailExecution | agent-graph-mcp/src/run_manager.rs:731-737 | the error path marks the run failed |
| ResumeProtocol.StepKeepsInv | agent-graph-mcp/src/server.rs:1783-1890 | the invariant of all interleavings of starting, checkpointing and resuming clients, execution threads, approvals and restarts is kept by every step |
| ResumeProtocol.StoreStep | agent-graph-mcp/src/server.rs:1332-1351 | storing the record of a resumed run never fails |
| ResumeProtocol.LaunchStep | agent-graph-mcp/src/server.rs:1352-1357 | neither does its admission, which uses up the reservation; the execution row is still to be updated |
| ResumeProtocol.GiveBackStep | agent-graph-mcp/src/server.rs:1880-1888 | a refused consumption returns its reservation |
| ResumeProtocol.OneShot | agent-graph-mcp/src/server.rs:1783-1890 | in every behaviour no checkpoint's run is admitted twice, only consumed checkpoints are resumed and none that was approved or rejected, the reserved slots are exactly those of the clients that hold one, running and reserved slots stay within 8, and storing and admitting a resumed run never fail |
| ResumeProtocol.ConsumesIffUnspent | agent-graph-mcp/src/store.rs:1392-1438 | a client that holds a slot consumes its checkpoint exactly if it is not used up and its cursors fit |
| ResumeProtocol.LateApprovalIgnored | agent-graph-mcp/src/server.rs:1820-1880 | so a pending approval created between the checks and the consumption does not stop the resume |
| ResumeExamples.LateApproval | agent-graph-mcp/src/server.rs:1783-1890 | a behaviour from an empty server in which that happens |
| ResumeChecks.QueryStops | agent-graph-mcp/src/server.rs:1808-1818 | while a checkpoint is unused, the status query lets a resume pass exactly if the checkpoint has no approval, since all its approvals are pending |
| ResumeChecks.ResumedUnapproved | agent-graph-mcp/src/server.rs:1801-1890 | in every behaviour a request that consumes its checkpoint has queried its approvals before, and at that moment there was none |
| ResumeThreads.StepKeepsThreads | agent-graph-mcp/src/server.rs:1358-1372 | every step keeps: the running records are those with a thread, those about to get one and those whose execution row could not be updated after admission |
| ResumeThreads.RunningHaveThreads | agent-graph-mcp/src/server.rs:1358-1372 | so whenever no client is inside a section the running records are exactly those with a thread and the stranded ones, and with the reservations they stay within 8 |
| ResumeThreads.ThreadFindsRecord | agent-graph-mcp/src/run_manager.rs:730-757 | a live thread always finds its record, and finds it running |
| ResumeThreads.StrandedIff | agent-graph-mcp/src/server.rs:1358-1363 | a run is stranded exactly if the update of its execution row has failed since the last restart |
| ResumeExamples.Stranded | agent-graph-mcp/src/server.rs:1358-1363 | a behaviour that ends with a consumed checkpoint, a running record and no thread |
| ResumeProtocol.LaunchedByOwner | agent-graph-mcp/src/server.rs:1320-1384 | the client that is about to launch a checkpoint has consumed it alone, and its run was not admitted before |
| Joins.Dedupe | agent-graph/src/join.rs:321-331 | keeps exactly the first artifact of every identity, in order, and fails exactly if an artifact has no identity |
| Joins.DedupeKeepsIdentities | agent-graph/src/join.rs:321-331 | no identity is lost and none occurs twice |
| Joins.DedupeIdempotent | agent-graph/src/join.rs:321-331 | deduplicating twice is deduplicating once |
| Joins.Contradictions | agent-graph/src/join.rs:369-410 | one report for every pair of artifacts with equal scope and time and different claims, the left one first, in lexicographic order, each pair once |
| Joins.UnnoticedClaims | agent-graph/src/join.rs:279-285 | if different values that are not strings print differently, different claims of one scope and time go unnoticed exactly if one is a string that equals the print of the other |
| Joins.EmptyMatrix | agent-graph/src/join.rs:369-410 | so the matrix is empty exactly if every two claims of one scope and time are equal or look alike in that way |
| Joins.StringTrueUnnoticed | agent-graph/src/join.rs:369-410 | an input: the string true and the boolean; the matrix is empty |
| Joins.SplitMinority | agent-graph/src/join.rs:469-500 | majority and minority are an order-preserving partition of the artifacts |
| Joins.SplitProven | agent-graph/src/join.rs:566-601 | the artifacts with all required fields, witnesses and passed checks advance in order, and every other leaves a note in order |
| Joins.Join | agent-graph/src/join.rs:122-158 | the pipeline: errors exactly for empty inputs and missing identities, a strict matrix is quarantined exactly if something contradicts, a proof-carrying join exactly if an artifact lacks its proof, notes say so, and no artifact of the other strategies is lost |
| JoinRules.SplitAtDots | agent-graph/src/join.rs:271-277 | a path is its segments with dots between them, and no segment has a dot |
| JoinRules.PathLeads | agent-graph/src/join.rs:271-277 | a path leads to a value exactly if its segments do, field by field |
| JoinRules.IdentityMeans | agent-graph/src/join.rs:287-307 | an artifact is known by its key, or by the text at the path, which must not be blank |
| JoinRules.ClaimMeans | agent-graph/src/join.rs:279-285 | a claim is the text at its path, or the way another value prints |
| JoinRules.ProvenMeans | agent-graph/src/join.rs:503-582 | an artifact is proven exactly if all required paths lead somewhere, evidence that is there is a non-empty list of entries with witness and digest, and checks that are there a non-empty list of passed ones |

## Left out

- Engine.GraphExecutor.RunBranches: forks are values inside the scheduler and not objects, because a fork is only written by its own branch; sharing of the reducer table between forks is in `AgentState.Fork`.
- Engine.GraphExecutor.SpawnNext: what branches of a dropped set do after the superstep has returned is not modelled; they are only known to be in flight.
- Engine.GraphExecutor.DrainBranches: the events for aborted siblings are not modelled.
- Reducers.AddFold: numbers are reals, so negative zero and the distinction of integers and floats are not modelled; a sum that is too large is null, as in the source.
- Compiling.Compile: node types are arbitrary functions, so the configuration errors of the nodes are left out.
- Engine.GraphExecutor.Execute: describes one run of an executor; other runs in the same store take part only in `TwoCopies`.
- Engine.GraphExecutor.ExecuteInner: resuming after an interrupt is not related to the uninterrupted run, because the interrupt is checked again and the two differ.
- PersistentStores.PersistentStore.CreateResumeCheckpoint: rows of the older checkpoint table without an identifier are not in the model, so a clash with one of them shows as a disk error.
- ResumeThreads.StepKeepsThreads: a thread that panics, or that cannot be created, is not modelled.
- ResumeProtocol.StepKeepsInv: a resume loads the checkpoint and queries its approvals in two steps and may be denied after the first; the loading of graph and contract, idempotency keys and the execution table are not modelled.
- Joins.Join: the reasons in the notes of a proof-carrying join are not modelled, and neither are the plain collecting joins, which would only add shape checks.
- Joins.UnnoticedClaims: an integer and a float of the same value are one number here, but print differently.
- Runs.Execute: node types are arbitrary functions, so the nodes' own configuration errors in `compile` and the retry settings read from it are parameters.
- GraphSpecs.Validate: the per-node checks (`validate_node`), the output key check and the size limits of `parse_and_validate` are left out.
- Retry delays, jitter, wall-clock budgets and lock timeouts, which are floating-point or real-time matters.
- Events other than the starts and ends of a family's trials, because the sinks may drop them; a second end of a node after a cancellation or an aborted sibling is not counted.
- Panics of branch tasks (join errors) and lock poisoning.
- The older checkpointer next to the checkpoint store, and execution summaries other than the attempt counters.
- SQLite itself, files, sockets, the daemon, the command line, and the tool protocol around the server.
- Model calls, prompts, templates, evidence checks, promotion and policy, which are external behaviour or add only simple members.
- Terminal receipts, graph versions and the listing queries of the store.

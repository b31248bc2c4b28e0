/** Compiling a specification and executing it within its limits (`execute_with_store_options` in
  * agent-graph-mcp/src/run_manager.rs), and what the static results say about such a run. */
module Runs {
  import opened Values
  import opened Reducers
  import opened AgentStates
  import opened Graphs
  import opened EngineSpec
  import opened Branches
  import opened CheckpointStore
  import opened Engine
  import opened Schedules
  import opened GraphSpecs
  import opened Chains
  import opened Compiling
  import opened Following
  import opened Budgets
  import opened BudgetLimits
  import opened ChainRuns

  /** How a run ended, how many supersteps and node starts it took, and whether it was told to stop. */
  datatype Outcome =
    | NotCompiled(error: CompileError)
    | Ran(result: Result<Data, Error>, supersteps: nat, started: nat, cancelled: bool)

  predicate HitsLimit(outcome: Outcome) {
    outcome.Ran? && outcome.result.Err? && outcome.result.error.MaxIterationsExceeded?
  }

  /** The run neither succeeds nor hits its limit, and is not told to stop. */
  predicate Fails(outcome: Outcome) {
    && outcome.Ran? && outcome.result.Err? && !outcome.result.error.MaxIterationsExceeded?
    && !outcome.cancelled
  }

  method RegisterReducers(state: AgentState, reducers: map<string, Reducer>)
    requires state.reducers.entries == map[]
    modifies state.reducers
    ensures state.reducers.entries == reducers
  {
    var todo := reducers.Keys;
    while todo != {}
      invariant todo <= reducers.Keys
      invariant state.reducers.entries.Keys == reducers.Keys - todo
      invariant forall key :: key in state.reducers.entries ==> state.reducers.entries[key] == reducers[key]
    {
      var key :| key in todo;
      state.RegisterReducer(key, reducers[key]);
      todo := todo - {key};
    }
    assert state.reducers.entries == reducers;
  }

  /** The number of supersteps a run may take. */
  ghost predicate IsLimit(spec: GraphSpec, maxNodes: Option<nat>, limit: nat) {
    match maxNodes
    case None => limit == Iterations(spec)
    case Some(budget) =>
      exists allowed :: IsAllowed(spec, budget, allowed) && limit ==
        if AtLeastOne(allowed) <= Iterations(spec) then AtLeastOne(allowed) else Iterations(spec)
  }

  function OrElse(given: Option<nat>, default: nat): nat {
    if given.Some? then given.value else default
  }

  /** What an execution says of the run `After(env, start, ..)`. */
  ghost predicate Reports(spec: GraphSpec, input: Data, outcome: Outcome, env: Env, start: Point, limit: nat) {
    && outcome.Ran? && outcome.supersteps <= limit
    && StartsAt(env, input, spec.entry, start) && outcome.started <= Work(env, start, limit)
    && (outcome.result.Ok? ==>
          && Finished(env, start, outcome.supersteps)
          && After(env, start, outcome.supersteps).value.data == outcome.result.value)
    && (HitsLimit(outcome) ==>
          outcome.supersteps == limit && After(env, start, limit).Some? && !Finished(env, start, limit))
    && (Fails(outcome) ==>
          && outcome.supersteps < limit && After(env, start, outcome.supersteps).Some?
          && !Finished(env, start, outcome.supersteps) && After(env, start, outcome.supersteps + 1) == None)
  }

  method LimitFor(spec: GraphSpec, maxNodes: Option<nat>) returns (limit: nat)
    requires WellFormed(spec) && (maxNodes.Some? ==> maxNodes.value <= U64_MAX)
    ensures IsLimit(spec, maxNodes, limit)
    ensures 1 <= limit <= Iterations(spec) && (maxNodes.None? ==> limit == Iterations(spec))
  {
    hide IsAllowed;
    limit := Iterations(spec);
    if maxNodes.Some? {
      var budgetLimit, _ := BudgetIterationLimit(spec, maxNodes.value);
      if budgetLimit < limit {
        limit := budgetLimit;
      }
    }
  }

  /** No checkpoint store takes part. `slots` is how many branches the engine may run at once. A limit or a number
    * of branches that is not given is 64 or 8. */
  method Execute(spec: GraphSpec, behaviour: string -> ((Data, nat) -> Trial), retry: map<string, RetryPolicy>,
                 limits: Limits, input: Data, maxNodes: Option<nat>)
    returns (outcome: Outcome, ghost env: Env, ghost start: Point, ghost limit: nat, ghost slots: nat)
    requires WellFormed(spec) && (maxNodes.Some? ==> maxNodes.value <= U64_MAX)
    ensures outcome.NotCompiled? <==> !AllExecutable(spec)
    ensures outcome.Ran? ==>
      && Compiled(spec, env.graph) && env.reducers == spec.reducers && env.limits == limits && env.graph.retry == retry
      && (forall id :: id in env.graph.nodes ==> env.graph.nodes[id] == behaviour(id))
      && IsLimit(spec, maxNodes, limit) && Reports(spec, input, outcome, env, start, limit)
      && 1 <= limit <= OrElse(spec.maxIterations, 64) && (maxNodes.None? ==> limit == OrElse(spec.maxIterations, 64))
      && slots == OrElse(spec.maxParallelism, 8)
  {
    hide WellFormed, AllExecutable, IsLimit, After, Finished, Work, StartsAt, Compiled, EdgeTargets;
    start, limit, slots := Point(input, []), 0, 0;
    env := Env(Graph(map[], map[], map[], 0, false, {}, {}), limits, map[]);
    var graph := Compile(spec, behaviour, retry);
    if graph.Err? {
      return NotCompiled(graph.error), env, start, limit, slots;
    }
    var recursionLimit := LimitFor(spec, maxNodes);
    var state := new AgentState.WithDataAndLimits(input, limits);
    RegisterReducers(state, spec.reducers);
    var executor := new GraphExecutor(graph.value, recursionLimit, Parallelism(spec), state, false, 0, Store(map[], map[]), 0);
    var result;
    env, limit, slots := executor.TheEnv(), recursionLimit, executor.maxParallelism;
    EdgeTargetsExact(spec, graph.value, input, START);
    result, start := executor.Execute(spec.entry);
    outcome := Ran(result, executor.iteration, executor.nodeStarts, executor.cancelFlag);
  }

  lemma LimitAllowed(spec: GraphSpec, budget: nat, limit: nat) returns (allowed: nat)
    requires IsLimit(spec, Some(budget), limit)
    ensures IsAllowed(spec, budget, allowed) && limit <= AtLeastOne(allowed)
  {
    hide IsAllowed;
    allowed :| IsAllowed(spec, budget, allowed) &&
      limit == if AtLeastOne(allowed) <= Iterations(spec) then AtLeastOne(allowed) else Iterations(spec);
  }

  /** The node budget holds for every run that follows the edges. */
  lemma BudgetHolds(spec: GraphSpec, input: Data, outcome: Outcome, env: Env, start: Point, limit: nat, budget: nat,
                    attempts: nat)
    requires Reports(spec, input, outcome, env, start, limit) && IsLimit(spec, Some(budget), limit) && budget >= 1
    requires FollowsEdges(spec, env, start)
    requires forall name :: MaxAttempts(env.graph, name) <= attempts
    ensures outcome.started <= attempts * budget
  {
    hide StartsAt, After, Finished, Work, FollowsEdges, IsAllowed, IsLimit;
    var allowed := LimitAllowed(spec, budget, limit);
    BudgetCoversWork(spec, env, start, budget, allowed, limit, attempts);
  }

  /** Main result: it holds for every compiled specification without an excess whose nodes leave navigation
    * to the edges. None without a node called like the virtual start node has an excess. */
  lemma CompiledBudgetHolds(spec: GraphSpec, input: Data, outcome: Outcome, env: Env, start: Point, limit: nat,
                            budget: nat,
                            attempts: nat)
    requires WellFormed(spec) && Compiled(spec, env.graph) && NavigatesByEdges(env)
    requires START !in Ids(spec.nodes) || !Excess(spec)
    requires Reports(spec, input, outcome, env, start, limit) && IsLimit(spec, Some(budget), limit) && budget >= 1
    requires forall name :: MaxAttempts(env.graph, name) <= attempts
    ensures outcome.started <= attempts * budget
  {
    hide WellFormed, Compiled, NavigatesByEdges, StartsAt, After, Finished, Work, IsAllowed, IsLimit, Excess,
      NodeCount, StartList, MaxAttempts;
    if START !in Ids(spec.nodes) {
      NoStartNoExcess(spec);
    }
    var allowed := LimitAllowed(spec, budget, limit);
    StartIsList(spec, env, input, start);
    NoExcessHolds(spec, env, start, budget, allowed);
    CountGrows(env, start, limit, AtLeastOne(allowed));
    WorkBound(env, start, limit, attempts);
    var count := NodeCount(env, start, limit);
    assert attempts * count <= attempts * budget;
  }

  /** And for every compiled specification without such a node whose nodes navigate within the edges, routers
    * included. */
  lemma RoutedBudgetHolds(spec: GraphSpec, input: Data, outcome: Outcome, env: Env, start: Point, limit: nat,
                          budget: nat,
                          attempts: nat)
    requires WellFormed(spec) && Compiled(spec, env.graph) && NavigatesWithin(spec, env) && START !in Ids(spec.nodes)
    requires Reports(spec, input, outcome, env, start, limit) && IsLimit(spec, Some(budget), limit) && budget >= 1
    requires forall name :: MaxAttempts(env.graph, name) <= attempts
    ensures outcome.started <= attempts * budget
  {
    hide WellFormed, Compiled, NavigatesWithin, StartsAt, After, Finished, Work, IsLimit, StartList, FollowsEdges,
      MaxAttempts;
    StartIsList(spec, env, input, start);
    WithinFollowsEdges(spec, env, start);
    BudgetHolds(spec, input, outcome, env, start, limit, budget, attempts);
  }

  /** Main result: unless it is told to stop, a chain completes exactly if no node called like the virtual
    * start node comes before the first called like the end, the nodes before that all succeed, and the
    * limit is at least their number; and then with the folded state. */
  lemma ChainOutcome(spec: GraphSpec, input: Data, outcome: Outcome, env: Env, start: Point, limit: nat, c: seq<string>)
    requires Reports(spec, input, outcome, env, start, limit) && !outcome.cancelled
    requires ChainGraph(spec, env, c) && forall id :: id in c ==> id in env.graph.nodes
    ensures outcome.result.Ok? <==>
      !StartBeforeEnd(c) && FirstEnd(c) <= limit && ChainData(env, c, input, FirstEnd(c)).Some?
    ensures outcome.result.Ok? ==>
      outcome.supersteps == FirstEnd(c) && Some(outcome.result.value) == ChainData(env, c, input, FirstEnd(c))
  {
    hide StartsAt, After, Finished, Work, ChainGraph, ChainData, FirstEnd;
    if StartBeforeEnd(c) {
      if outcome.result.Ok? {
        NeverFinishes(spec, env, c, input, start, outcome.supersteps);
      }
    } else {
      PlainEntry(spec, env, c);
      hide StartBeforeEnd;
      PlainChainOutcome(spec, input, outcome, env, start, limit, c);
    }
  }

  lemma PlainEntry(spec: GraphSpec, env: Env, c: seq<string>)
    requires ChainGraph(spec, env, c) && !StartBeforeEnd(c)
    ensures spec.entry != START
  {
    assert FirstEnd(c) > 0 ==> c[..FirstEnd(c)][0] == c[0];
  }

  lemma PlainChainOutcome(spec: GraphSpec, input: Data, outcome: Outcome, env: Env, start: Point, limit: nat,
                          c: seq<string>)
    requires Reports(spec, input, outcome, env, start, limit) && !outcome.cancelled && spec.entry != START
    requires ChainGraph(spec, env, c) && !StartBeforeEnd(c) && forall id :: id in c ==> id in env.graph.nodes
    ensures outcome.result.Ok? <==> FirstEnd(c) <= limit && ChainData(env, c, input, FirstEnd(c)).Some?
    ensures outcome.result.Ok? ==>
      outcome.supersteps == FirstEnd(c) && Some(outcome.result.value) == ChainData(env, c, input, FirstEnd(c))
  {
    hide StartsAt, After, Finished, Work, ChainGraph, ChainData, FirstEnd, StartBeforeEnd;
    var f := FirstEnd(c);
    ChainRun(spec, env, c, input, start, outcome.supersteps);
    ChainRun(spec, env, c, input, start, f);
    if !outcome.result.Ok? && f <= limit && ChainData(env, c, input, f).Some? {
      ChainSucceeds(env, c, input, f, outcome.supersteps + 1);
      ChainRun(spec, env, c, input, start, outcome.supersteps + 1);
    }
  }

  lemma {:induction false} ChainSucceeds(env: Env, c: seq<string>, data: Data, n: nat, i: nat)
    requires n <= |c| && forall id :: id in c ==> id in env.graph.nodes
    requires ChainData(env, c, data, n).Some?
    ensures i <= n ==> ChainData(env, c, data, i).Some?
    decreases n
  {
    if i < n {
      ChainSucceeds(env, c, data, n - 1, i);
    }
  }
}

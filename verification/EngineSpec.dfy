/** What a run of the engine computes, without schedules: retry families, supersteps and the
  * sequence of states and frontiers (agent-graph/src/engine.rs). */
module EngineSpec {
  import opened Values
  import opened Reducers
  import opened AgentStates
  import opened Graphs
  import opened Sorting
  import opened Iteration
  import opened Merging

  // ---- Retry families -------------------------------------------------------------

  datatype Family = FamilyOk(data: Data, output: NodeOutput) | FamilyErr(error: NodeError) | FamilyRejected

  function MaxAttempts(g: Graph, name: string): (n: nat)
    ensures n >= 1
  {
    if name in g.retry && g.retry[name].maxAttempts > 1 then g.retry[name].maxAttempts else 1
  }

  predicate ShouldRetry(g: Graph, name: string, ordinal: nat, error: NodeError) {
    name in g.retry && ordinal + 1 < MaxAttempts(g, name) && g.retry[name].retryOn(error)
  }

  function UpdatesOf(output: NodeOutput): Data {
    match output
    case Command(Some(updates), _) => updates
    case _ => map[]
  }

  /** The values the updates of a command store; a rejected one is listed with a placeholder. */
  function UpdateWrites(env: Env, data: Data, updates: Data): (r: Data)
    ensures r.Keys == updates.Keys
  {
    map key | key in updates ::
      match NextValue(env.limits, env.reducers, data, key, updates[key]) case Ok(v) => v case Err(_) => Null
  }

  predicate UpdatesOk(env: Env, data: Data, updates: Data) {
    && (forall key :: key in updates ==> NextValue(env.limits, env.reducers, data, key, updates[key]).Ok?)
    && InsertAllOk(env.limits, data, UpdateWrites(env, data, updates))
  }

  /** One trial, and the retries after it. A retry continues on the state the failed trial left. */
  function FamilyFrom(env: Env, name: string, data: Data, ordinal: nat): Family
    requires name in env.graph.nodes
    decreases MaxAttempts(env.graph, name) - ordinal, 1
  {
    var trial := env.graph.nodes[name](data, ordinal);
    AfterTrial(env, name, trial.data, ordinal, trial.outcome)
  }

  function AfterTrial(env: Env, name: string, data: Data, ordinal: nat, outcome: Result<NodeOutput, NodeError>): Family
    requires name in env.graph.nodes
    decreases MaxAttempts(env.graph, name) - ordinal, 0
  {
    match outcome
    case Ok(output) =>
      var updates := UpdatesOf(output);
      if UpdatesOk(env, data, updates) then FamilyOk(data + UpdateWrites(env, data, updates), output)
      else FamilyRejected
    case Err(error) =>
      if ShouldRetry(env.graph, name, ordinal, error) then FamilyFrom(env, name, data, ordinal + 1)
      else FamilyErr(error)
  }

  /** The state before trial `k`, when the trials before it failed. */
  function DataBefore(env: Env, name: string, data: Data, k: nat): Data
    requires name in env.graph.nodes
  {
    if k == 0 then data else env.graph.nodes[name](DataBefore(env, name, data, k - 1), k - 1).data
  }

  function OutcomeOf(env: Env, name: string, data: Data, k: nat): Result<NodeOutput, NodeError>
    requires name in env.graph.nodes
  {
    env.graph.nodes[name](DataBefore(env, name, data, k), k).outcome
  }

  /** The policy of a node allows another trial after trial `k` failed with this error. */
  ghost predicate Allows(g: Graph, name: string, k: nat, error: NodeError) {
    name in g.retry && k + 1 < g.retry[name].maxAttempts && g.retry[name].retryOn(error)
  }

  /** A family is its trials 0, 1, ..., `last`: all but the last fail and the retry policy allows another trial;
    * the last succeeds, or its error is the one returned: no policy, the attempts used up, or an error the
    * policy does not retry. */
  lemma FamilyTrials(env: Env, name: string, data: Data) returns (last: nat)
    requires name in env.graph.nodes
    ensures name !in env.graph.retry ==> last == 0
    ensures last == 0 || last < env.graph.retry[name].maxAttempts
    ensures forall k: nat :: k < last ==>
      OutcomeOf(env, name, data, k).Err? && Allows(env.graph, name, k, OutcomeOf(env, name, data, k).error)
    ensures FamilyFrom(env, name, data, 0) ==
      AfterTrial(env, name, DataBefore(env, name, data, last + 1), last, OutcomeOf(env, name, data, last))
    ensures OutcomeOf(env, name, data, last).Err? ==>
      && !Allows(env.graph, name, last, OutcomeOf(env, name, data, last).error)
      && FamilyFrom(env, name, data, 0) == FamilyErr(OutcomeOf(env, name, data, last).error)
  {
    last := 0;
    while OutcomeOf(env, name, data, last).Err? && ShouldRetry(env.graph, name, last, OutcomeOf(env, name, data, last).error)
      invariant last < MaxAttempts(env.graph, name)
      invariant forall k: nat :: k < last ==>
        OutcomeOf(env, name, data, k).Err? && Allows(env.graph, name, k, OutcomeOf(env, name, data, k).error)
      invariant FamilyFrom(env, name, data, 0) == FamilyFrom(env, name, DataBefore(env, name, data, last), last)
      decreases MaxAttempts(env.graph, name) - last
    {
      last := last + 1;
    }
  }

  /** The updates of a trial that succeeds reach the state: every key gets what writing its value yields, the
    * other keys keep theirs, and the output is handed on. */
  lemma UpdatesReachState(env: Env, name: string, data: Data, ordinal: nat, output: NodeOutput)
    requires name in env.graph.nodes && AfterTrial(env, name, data, ordinal, Ok(output)).FamilyOk?
    ensures var family := AfterTrial(env, name, data, ordinal, Ok(output));
      family.output == output &&
      match output
      case Command(Some(updates), _) => Updated(env, data, updates, family.data)
      case _ => family.data == data
  {
    assert data + map[] == data;
  }

  ghost predicate Updated(env: Env, data: Data, updates: Data, next: Data) {
    && next.Keys == data.Keys + updates.Keys
    && (forall key :: key in updates ==> NextValue(env.limits, env.reducers, data, key, updates[key]) == Ok(next[key]))
    && (forall key :: key in data && key !in updates ==> next[key] == data[key])
  }

  /** The updates of a trial are rejected exactly if one of them cannot be written, or there are too many keys. */
  lemma UpdatesRejected(env: Env, name: string, data: Data, ordinal: nat, output: NodeOutput)
    requires name in env.graph.nodes
    ensures AfterTrial(env, name, data, ordinal, Ok(output)) == FamilyRejected <==>
      && output.Command? && output.update.Some?
      && var updates := output.update.value;
        || (exists key :: key in updates && Refused(env, data, key, updates[key]))
        || (|data.Keys + updates.Keys| > env.limits.maxKeys && !(updates.Keys <= data.Keys))
  {
    var updates := UpdatesOf(output);
    hide AfterTrial, NextValue;
    RejectedIff(env, name, data, ordinal, output);
    forall key | key in updates
      ensures Refused(env, data, key, updates[key]) <==>
        !(NextValue(env.limits, env.reducers, data, key, updates[key]).Ok?
          && SizeOk(env.limits, UpdateWrites(env, data, updates)[key]))
    {
    }
  }

  lemma RejectedIff(env: Env, name: string, data: Data, ordinal: nat, output: NodeOutput)
    requires name in env.graph.nodes
    ensures AfterTrial(env, name, data, ordinal, Ok(output)) == FamilyRejected <==> !UpdatesOk(env, data, UpdatesOf(output))
  {
  }

  /** The value cannot be written: the reducer fails, or it or the reduced value is too large. */
  ghost predicate Refused(env: Env, data: Data, key: string, value: Json) {
    var next := NextValue(env.limits, env.reducers, data, key, value);
    next.Err? || env.limits.size(next.value) > env.limits.maxValueBytes
  }

  // ---- Navigation -----------------------------------------------------------------

  function RouteAll(edges: seq<EdgeType>, data: Data): Result<seq<string>, int> {
    if edges == [] then Ok([])
    else
      match RouteAll(edges[..|edges| - 1], data)
      case Err(e) => Err(e)
      case Ok(before) =>
        match RouteOne(edges[|edges| - 1], data)
        case Err(e) => Err(e)
        case Ok(targets) => Ok(before + targets)
  }

  function RouteOne(edge: EdgeType, data: Data): Result<seq<string>, int> {
    match edge
    case Normal(to) => Ok([to])
    case Conditional(route) =>
      match route(data)
      case Err(e) => Err(e)
      case Ok(Next(Some(n))) => Ok([n])
      case Ok(Next(None)) => Ok([])
      case Ok(FanOut(ns)) => Ok(ns)
  }

  function EdgeTargets(g: Graph, data: Data, name: string): Result<seq<string>, int> {
    if name in g.edges then RouteAll(g.edges[name], data) else Ok([])
  }

  function SendTargets(ops: seq<SendOp>): (r: seq<string>)
    ensures |r| == |ops|
  {
    seq(|ops|, i requires 0 <= i < |ops| => ops[i].node)
  }

  function ResolveOutput(g: Graph, data: Data, name: string, output: NodeOutput): Result<seq<string>, int> {
    match output
    case Done => EdgeTargets(g, data, name)
    case Command(_, Default) => EdgeTargets(g, data, name)
    case Command(_, GotoNode(n)) => Ok([n])
    case Command(_, GotoNodes(ns)) => Ok(ns)
    case Command(_, GotoEnd) => Ok([END])
    case Command(_, Send(ops)) => Ok(SendTargets(ops))
  }

  function ResolveAll(g: Graph, data: Data, results: seq<BranchResult>): Result<seq<string>, int> {
    if results == [] then Ok([])
    else
      var last := results[|results| - 1];
      match ResolveAll(g, data, results[..|results| - 1])
      case Err(e) => Err(e)
      case Ok(before) =>
        match ResolveOutput(g, data, last.name, last.output)
        case Err(e) => Err(e)
        case Ok(targets) => Ok(before + targets)
  }

  /** `retain(|n| n != END)`. */
  function DropEnd(s: seq<string>): (r: seq<string>)
    ensures forall n :: n in r <==> n in s && n != END
    ensures NoDup(s) ==> NoDup(r)
  {
    if s == [] then []
    else
      var last := s[|s| - 1];
      assert s == s[..|s| - 1] + [last];
      assert NoDup(s) ==> last !in s[..|s| - 1];
      DropEnd(s[..|s| - 1]) + if last == END then [] else [last]
  }

  /** The first occurrence of every name. */
  function Dedup(s: seq<string>): (r: seq<string>)
    ensures forall n :: n in r <==> n in s
    ensures NoDup(r)
  {
    if s == [] then []
    else
      var last := s[|s| - 1];
      assert s == s[..|s| - 1] + [last];
      Dedup(s[..|s| - 1]) + if last in s[..|s| - 1] then [] else [last]
  }

  // ---- One superstep ----------------------------------------------------------------

  /** The last position of a name, which is what the map from names to positions keeps. */
  function LastIndex(frontier: seq<string>, name: string): (i: int)
    ensures name in frontier ==> 0 <= i < |frontier| && frontier[i] == name
    ensures name !in frontier ==> i == -1
    ensures forall j :: i < j < |frontier| ==> frontier[j] != name
  {
    if frontier == [] then -1
    else if frontier[|frontier| - 1] == name then |frontier| - 1
    else LastIndex(frontier[..|frontier| - 1], name)
  }

  function OrderKey(frontier: seq<string>): BranchResult -> int {
    (r: BranchResult) => LastIndex(frontier, r.name)
  }

  predicate AllSucceed(env: Env, data: Data, frontier: seq<string>) {
    forall i :: 0 <= i < |frontier| ==>
      frontier[i] in env.graph.nodes && FamilyFrom(env, frontier[i], data, 0).FamilyOk?
  }

  function ResultOf(env: Env, data: Data, name: string): BranchResult
    requires name in env.graph.nodes && FamilyFrom(env, name, data, 0).FamilyOk?
  {
    var f := FamilyFrom(env, name, data, 0);
    BranchResult(name, f.data, f.output)
  }

  /** Every frontier node run on the same snapshot, in frontier order. */
  function BranchResults(env: Env, data: Data, frontier: seq<string>): (r: seq<BranchResult>)
    requires AllSucceed(env, data, frontier)
    ensures |r| == |frontier|
    ensures forall i :: 0 <= i < |r| ==> r[i] == ResultOf(env, data, frontier[i])
  {
    seq(|frontier|, i requires 0 <= i < |frontier| => ResultOf(env, data, frontier[i]))
  }

  /** Merging results and resolving their targets on the merged state. */
  function MergeAndResolve(env: Env, data: Data, results: seq<BranchResult>): Option<(Data, seq<string>)> {
    match Merge(env.limits, env.reducers, data, Forks(results))
    case None => None
    case Some(merged) =>
      match ResolveAll(env.graph, merged, results)
      case Err(_) => None
      case Ok(targets) => Some((merged, targets))
  }

  function ParallelStep(env: Env, data: Data, frontier: seq<string>): Option<(Data, seq<string>)> {
    if AllSucceed(env, data, frontier)
    then MergeAndResolve(env, data, SortByKey(BranchResults(env, data, frontier), OrderKey(frontier)))
    else None
  }

  function SingleStep(env: Env, data: Data, name: string): Option<(Data, seq<string>)> {
    if AllSucceed(env, data, [name]) then
      var r := ResultOf(env, data, [name][0]);
      match ResolveOutput(env.graph, r.data, name, r.output)
      case Err(_) => None
      case Ok(targets) => Some((r.data, targets))
    else None
  }

  function NodeStep(env: Env, data: Data, frontier: seq<string>): Option<(Data, seq<string>)> {
    if |frontier| == 1 then SingleStep(env, data, frontier[0]) else ParallelStep(env, data, frontier)
  }

  predicate Interrupts(names: set<string>, frontier: seq<string>) {
    exists i :: 0 <= i < |frontier| && frontier[i] in names
  }

  /** A superstep that goes through: the state it leaves and the targets it names. */
  function Superstep(env: Env, data: Data, frontier: seq<string>): Option<(Data, seq<string>)> {
    if Interrupts(env.graph.interruptBefore, frontier) || Interrupts(env.graph.interruptAfter, frontier) then None
    else NodeStep(env, data, frontier)
  }

  /** The family of the node fails with that error. */
  ghost predicate NodeFailure(env: Env, data: Data, name: string, error: Error) {
    && name in env.graph.nodes
    && match FamilyFrom(env, name, data, 0)
       case FamilyErr(e) => error == FromNode(e)
       case FamilyRejected => error == StateError
       case FamilyOk(_, _) => false
  }

  /** One of the nodes fails with that error. */
  ghost predicate BranchFailure(env: Env, data: Data, frontier: seq<string>, error: Error) {
    exists i :: 0 <= i < |frontier| && NodeFailure(env, data, frontier[i], error)
  }

  /** The first unknown node is reported. */
  ghost predicate Missing(g: Graph, frontier: seq<string>, error: Error) {
    exists i :: 0 <= i < |frontier| && frontier[i] !in g.nodes && error == NodeNotFound(frontier[i])
      && forall j :: 0 <= j < i ==> frontier[j] in g.nodes
  }

  /** All nodes succeed, but their results cannot be merged, or the targets not be resolved. */
  ghost predicate TailFailure(env: Env, data: Data, frontier: seq<string>, error: Error) {
    && AllSucceed(env, data, frontier)
    && if |frontier| == 1 then
         var r := ResultOf(env, data, [frontier[0]][0]);
         Unresolved(ResolveOutput(env.graph, r.data, frontier[0], r.output), error)
       else
         var results := SortByKey(BranchResults(env, data, frontier), OrderKey(frontier));
         match Merge(env.limits, env.reducers, data, Forks(results))
         case None => error == StateError
         case Some(merged) => Unresolved(ResolveAll(env.graph, merged, results), error)
  }

  predicate Unresolved(targets: Result<seq<string>, int>, error: Error) {
    targets.Err? && error == RouterError(targets.error)
  }

  /** Why the nodes of a superstep fail. */
  ghost predicate StepFailure(env: Env, data: Data, frontier: seq<string>, error: Error) {
    || BranchFailure(env, data, frontier, error) || Missing(env.graph, frontier, error)
    || TailFailure(env, data, frontier, error)
  }

  lemma NodesFail(env: Env, data: Data, frontier: seq<string>, error: Error)
    requires BranchFailure(env, data, frontier, error) || Missing(env.graph, frontier, error)
    ensures StepFailure(env, data, frontier, error)
  {
  }

  lemma MergeFails(env: Env, data: Data, frontier: seq<string>)
    requires AllSucceed(env, data, frontier) && |frontier| != 1
    requires var results := SortByKey(BranchResults(env, data, frontier), OrderKey(frontier));
      Merge(env.limits, env.reducers, data, Forks(results)).None?
    ensures StepFailure(env, data, frontier, StateError)
  {
  }

  lemma TargetsFail(env: Env, data: Data, frontier: seq<string>, merged: Data, code: int)
    requires AllSucceed(env, data, frontier) && |frontier| != 1
    requires var results := SortByKey(BranchResults(env, data, frontier), OrderKey(frontier));
      && Merge(env.limits, env.reducers, data, Forks(results)) == Some(merged)
      && ResolveAll(env.graph, merged, results) == Err(code)
    ensures StepFailure(env, data, frontier, RouterError(code))
  {
  }

  /** The run stops at the first node of the frontier with an interrupt: before the superstep, with the state as
    * it was, or else after it, with the state it leaves. */
  ghost predicate InterruptedAt(env: Env, data: Data, frontier: seq<string>, node: string, state: Data) {
    if Interrupts(env.graph.interruptBefore, frontier)
    then FirstOf(env.graph.interruptBefore, frontier, node) && state == data
    else
      && FirstOf(env.graph.interruptAfter, frontier, node)
      && NodeStep(env, data, frontier).Some? && state == NodeStep(env, data, frontier).value.0
  }

  ghost predicate FirstOf(names: set<string>, frontier: seq<string>, node: string) {
    exists i :: 0 <= i < |frontier| && frontier[i] == node && node in names && forall j :: 0 <= j < i ==> frontier[j] !in names
  }

  /** For a duplicate-free frontier the sort restores frontier order. */
  lemma FrontierOrder(env: Env, data: Data, frontier: seq<string>)
    requires NoDup(frontier) && AllSucceed(env, data, frontier)
    ensures SortByKey(BranchResults(env, data, frontier), OrderKey(frontier)) == BranchResults(env, data, frontier)
  {
    var results, key := BranchResults(env, data, frontier), OrderKey(frontier);
    forall i | 0 <= i < |frontier| ensures key(results[i]) == i {
      assert results[i].name == frontier[i];
      var last := LastIndex(frontier, frontier[i]);
      assert i == last;
    }
    ResultsInjective(env, data, frontier);
    SortedIsSorted(results, key);
  }

  /** Branches of the same name have the same result, so the order key tells results apart. */
  lemma ResultsInjective(env: Env, data: Data, frontier: seq<string>)
    requires AllSucceed(env, data, frontier)
    ensures InjectiveOn(multiset(BranchResults(env, data, frontier)), OrderKey(frontier))
  {
    var results, key := BranchResults(env, data, frontier), OrderKey(frontier);
    forall x, y | x in multiset(results) && y in multiset(results) && key(x) == key(y) ensures x == y {
      var i :| 0 <= i < |results| && results[i] == x;
      var j :| 0 <= j < |results| && results[j] == y;
      assert x.name == frontier[i] && y.name == frontier[j];
      assert frontier[LastIndex(frontier, x.name)] == x.name;
      assert frontier[LastIndex(frontier, y.name)] == y.name;
    }
  }

  lemma OneFails(env: Env, data: Data, frontier: seq<string>, i: nat)
    requires i < |frontier|
    ensures !(frontier[i] in env.graph.nodes && FamilyFrom(env, frontier[i], data, 0).FamilyOk?) ==>
      !AllSucceed(env, data, frontier)
  {
  }

  lemma ParallelFails(env: Env, data: Data, frontier: seq<string>)
    ensures !AllSucceed(env, data, frontier) ==> ParallelStep(env, data, frontier) == None
  {
  }

  /** Whatever order the branches finish in, sorting, merging and resolving give one outcome. */
  lemma AnyCompletionOrder(env: Env, data: Data, frontier: seq<string>, finished: seq<BranchResult>)
    requires AllSucceed(env, data, frontier)
    requires multiset(finished) == multiset(BranchResults(env, data, frontier))
    ensures MergeAndResolve(env, data, SortByKey(finished, OrderKey(frontier))) == ParallelStep(env, data, frontier)
    ensures SortByKey(finished, OrderKey(frontier)) == SortByKey(BranchResults(env, data, frontier), OrderKey(frontier))
    ensures NoDup(frontier) ==> SortByKey(finished, OrderKey(frontier)) == BranchResults(env, data, frontier)
  {
    ResultsInjective(env, data, frontier);
    SortPermutation(BranchResults(env, data, frontier), finished, OrderKey(frontier));
    if NoDup(frontier) {
      FrontierOrder(env, data, frontier);
    }
  }

  // ---- Runs -----------------------------------------------------------------------

  /** Where a run stands between supersteps; the frontier is free of END. */
  datatype Point = Point(data: Data, frontier: seq<string>)

  function Start(data: Data, frontier: seq<string>): Point {
    Point(data, DropEnd(frontier))
  }

  /** Where a run from a start node begins; the virtual start node stands for its edge targets. */
  ghost predicate StartsAt(env: Env, data: Data, startNode: string, start: Point) {
    if startNode == START
    then EdgeTargets(env.graph, data, START).Ok? && start == Start(data, EdgeTargets(env.graph, data, START).value)
    else start == Start(data, [startNode])
  }

  /** One superstep, the deduplication of its targets and the removal of END. */
  function Continue(env: Env, p: Point): Option<Point> {
    if p.frontier == [] then None
    else
      match Superstep(env, p.data, p.frontier)
      case None => None
      case Some(s) => Some(Point(s.0, DropEnd(Dedup(s.1))))
  }

  function Stepper(env: Env): Point -> Option<Point> {
    p => Continue(env, p)
  }

  /** The point after `n` supersteps, as long as all of them go through. */
  function After(env: Env, start: Point, n: nat): Option<Point> {
    Iterate(Stepper(env), start, n)
  }

  /** How one superstep decides the next point. */
  lemma AfterStep(env: Env, start: Point, n: nat, p: Point)
    requires After(env, start, n) == Some(p) && p.frontier != []
    ensures !Finished(env, start, n)
    ensures match Superstep(env, p.data, p.frontier)
      case Some(s) => After(env, start, n + 1) == Some(Start(s.0, Dedup(s.1)))
      case None => After(env, start, n + 1) == None
  {
  }

  lemma SuperstepCases(env: Env, data: Data, frontier: seq<string>)
    ensures Interrupts(env.graph.interruptBefore, frontier) || Interrupts(env.graph.interruptAfter, frontier) ==>
      Superstep(env, data, frontier) == None
    ensures !Interrupts(env.graph.interruptBefore, frontier) && !Interrupts(env.graph.interruptAfter, frontier) ==>
      Superstep(env, data, frontier) == NodeStep(env, data, frontier)
    ensures NodeStep(env, data, frontier) == None ==> Superstep(env, data, frontier) == None
    ensures |frontier| == 1 ==>
      frontier == [frontier[0]] && NodeStep(env, data, frontier) == SingleStep(env, data, frontier[0])
    ensures |frontier| != 1 ==> NodeStep(env, data, frontier) == ParallelStep(env, data, frontier)
  {
  }

  predicate Finished(env: Env, start: Point, n: nat) {
    After(env, start, n).Some? && After(env, start, n).value.frontier == []
  }

  lemma AfterNone(env: Env, start: Point)
    ensures After(env, start, 0) == Some(start)
  {
  }

  lemma FrontierDone(env: Env, start: Point, n: nat, p: Point)
    requires After(env, start, n) == Some(p)
    ensures Finished(env, start, n) <==> p.frontier == []
  {
  }

  lemma FinishesOnce(env: Env, start: Point, m: nat, n: nat)
    requires Finished(env, start, m) && Finished(env, start, n)
    ensures m == n
  {
    StuckOnce(Stepper(env), start, m, n);
  }

  /** Every frontier after the first is duplicate-free and without END. */
  lemma FrontierNoDup(env: Env, start: Point, n: nat)
    requires n > 0 && After(env, start, n).Some?
    ensures var f := After(env, start, n).value.frontier; NoDup(f) && END !in f
  {
    IterateEarlier(Stepper(env), start, n - 1, n);
    var p := After(env, start, n - 1).value;
    ContinueNoDup(env, p);
  }

  lemma ContinueNoDup(env: Env, p: Point)
    ensures var q := Continue(env, p); q.Some? ==> NoDup(q.value.frontier) && END !in q.value.frontier
  {
  }
}

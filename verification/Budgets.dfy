/** From a node budget to a superstep limit (`budget_iteration_limit` in agent-graph-mcp/src/run_manager.rs),
  * and why a run within the limit stays within the budget. */
module Budgets {
  import opened Values
  import opened AgentStates
  import opened Graphs
  import opened Sorting
  import opened EngineSpec
  import opened Schedules
  import opened GraphSpecs
  import opened Chains
  import opened Compiling
  import opened Following

  const U64_MAX: nat := 0xFFFF_FFFF_FFFF_FFFF

  function SaturatingAdd(a: nat, b: nat): nat {
    if a + b > U64_MAX then U64_MAX else a + b
  }

  // ---- The conservative frontiers -------------------------------------------------------

  /** The targets of all edges out of a frontier, in edge order. */
  function PossibleTargets(edges: seq<EdgeSpec>, frontier: seq<string>): seq<string> {
    if edges == [] then []
    else
      var last := edges[|edges| - 1];
      PossibleTargets(edges[..|edges| - 1], frontier) + if last.from in frontier && last.to != "END" then [last.to] else []
  }

  /** The nodes that may run in superstep `k` if every edge is taken. */
  function Possible(spec: GraphSpec, k: nat): (r: seq<string>)
    ensures NoDup(r) && "END" !in r
  {
    if k == 0 then (if spec.entry == "END" then [] else [spec.entry])
    else
      NoEndAmongTargets(spec.edges, Possible(spec, k - 1));
      Dedup(PossibleTargets(spec.edges, Possible(spec, k - 1)))
  }

  lemma {:induction false} NoEndAmongTargets(edges: seq<EdgeSpec>, frontier: seq<string>)
    ensures "END" !in PossibleTargets(edges, frontier)
    decreases |edges|
  {
    if edges != [] {
      NoEndAmongTargets(edges[..|edges| - 1], frontier);
    }
  }

  lemma {:induction false} PossibleTarget(edges: seq<EdgeSpec>, frontier: seq<string>, id: string)
    ensures id in PossibleTargets(edges, frontier) <==> Successor(edges, frontier, id)
    decreases |edges|
  {
    if edges != [] {
      var n := |edges| - 1;
      PossibleTarget(edges[..n], frontier, id);
      assert edges == edges[..n] + [edges[n]];
      if Successor(edges, frontier, id) {
        var from :| from in frontier && EdgeSpec(from, id) in edges;
        assert EdgeSpec(from, id) in edges[..n] || edges[n] == EdgeSpec(from, id);
      }
      if edges[n].from in frontier && edges[n].to == id && id != "END" {
        assert EdgeSpec(edges[n].from, id) in edges;
      }
    }
  }

  /** The nodes counted in the first `k` supersteps. */
  function Observed(spec: GraphSpec, k: nat): nat {
    if k == 0 then 0 else Observed(spec, k - 1) + |Possible(spec, k - 1)|
  }

  /** The first `allowed` conservative frontiers are non-empty and fit the budget, and no more do. */
  ghost predicate IsAllowed(spec: GraphSpec, maxNodes: nat, allowed: nat) {
    && allowed <= Iterations(spec) && Observed(spec, allowed) <= maxNodes
    && (forall k: nat :: k < allowed ==> Possible(spec, k) != [])
    && (allowed < Iterations(spec) && Possible(spec, allowed) != [] ==> Observed(spec, allowed + 1) > maxNodes)
  }

  lemma {:induction false} ObservedGrows(spec: GraphSpec, m: nat, n: nat)
    requires m <= n
    ensures Observed(spec, m) <= Observed(spec, n)
    decreases n
  {
    hide Possible;
    if m < n {
      ObservedGrows(spec, m, n - 1);
    }
  }

  /** There is only one such number. */
  lemma AllowedUnique(spec: GraphSpec, maxNodes: nat, a: nat, b: nat)
    requires IsAllowed(spec, maxNodes, a) && IsAllowed(spec, maxNodes, b)
    ensures a == b
  {
    hide Possible, Observed;
    if a < b {
      ObservedGrows(spec, a + 1, b);
    } else if b < a {
      ObservedGrows(spec, b + 1, a);
    }
  }

  function AtLeastOne(n: nat): nat {
    if n < 1 then 1 else n
  }

  // ---- The method -----------------------------------------------------------------------

  method NextFrontier(spec: GraphSpec, frontier: seq<string>) returns (next: seq<string>)
    ensures next == Dedup(PossibleTargets(spec.edges, frontier))
  {
    var targets: seq<string> := [];
    for i := 0 to |spec.edges|
      invariant targets == PossibleTargets(spec.edges[..i], frontier)
    {
      assert spec.edges[..i + 1][..i] == spec.edges[..i];
      var edge := spec.edges[i];
      if edge.from in frontier && edge.to != "END" {
        targets := targets + [edge.to];
      }
    }
    assert spec.edges[..|spec.edges|] == spec.edges;
    next := [];
    var seen: set<string> := {};
    for i := 0 to |targets|
      invariant next == Dedup(targets[..i])
      invariant forall n :: n in seen <==> n in targets[..i]
    {
      assert targets[..i + 1][..i] == targets[..i];
      assert targets[..i + 1] == targets[..i] + [targets[i]];
      if targets[i] !in seen {
        next := next + [targets[i]];
        seen := seen + {targets[i]};
      }
    }
    assert targets[..|targets|] == targets;
  }

  lemma {:induction false} PossibleSmall(spec: GraphSpec, k: nat)
    requires WellFormed(spec)
    ensures |Possible(spec, k)| <= MAX_NODES
    ensures forall id :: id in Possible(spec, k) ==> id in Ids(spec.nodes)
  {
    var ids := Ids(spec.nodes);
    if k > 0 {
      PossibleSmall(spec, k - 1);
      forall id | id in Possible(spec, k) ensures id in ids {
        PossibleTarget(spec.edges, Possible(spec, k - 1), id);
        SuccessorsAreNodes(spec, Possible(spec, k - 1), id);
      }
    }
    hide Possible;
    NoDupSubset(Possible(spec, k), ids);
  }

  lemma NoDupSubset<T>(a: seq<T>, b: seq<T>)
    requires NoDup(a) && forall x :: x in a ==> x in b
    ensures |a| <= |b|
  {
    NoDupSize(a);
    SetOfSize(b);
    SubsetSize(set x | x in a, set x | x in b);
  }

  /** `allowed` is the value of the counter at the end. On a validated specification the saturating
    * additions never saturate. */
  method BudgetIterationLimit(spec: GraphSpec, maxNodes: nat) returns (limit: nat, ghost allowed: nat)
    requires maxNodes <= U64_MAX && WellFormed(spec)
    ensures IsAllowed(spec, maxNodes, allowed) && limit == if allowed == 0 then 1 else allowed
    ensures forall a :: IsAllowed(spec, maxNodes, a) ==> limit == AtLeastOne(a)
  {
    hide Possible, Observed, WellFormed, WithoutEnd, Dedup, PossibleTargets, Iterations, SaturatingAdd, IsAllowed;
    BudgetStart(spec);
    var frontier := [spec.entry];
    var observed, count := 0, 0;
    for i := 0 to Iterations(spec)
      invariant count == i && observed == Observed(spec, i) <= maxNodes && observed <= i * MAX_NODES
      invariant WithoutEnd(frontier) == Possible(spec, i)
      invariant forall k: nat :: k < i ==> Possible(spec, k) != []
    {
      frontier := RetainNodes(frontier);
      BudgetNext(spec, i, observed);
      if frontier == [] {
        break;
      }
      if SaturatingAdd(observed, |frontier|) > maxNodes {
        break;
      }
      observed := SaturatingAdd(observed, |frontier|);
      count := count + 1;
      frontier := NextFrontier(spec, frontier);
    }
    BudgetStops(spec, maxNodes, count);
    forall a | IsAllowed(spec, maxNodes, a) ensures a == count {
      AllowedUnique(spec, maxNodes, a, count);
    }
    limit, allowed := if count < 1 then 1 else count, count;
  }

  lemma BudgetStops(spec: GraphSpec, maxNodes: nat, count: nat)
    requires count <= Iterations(spec) && Observed(spec, count) <= maxNodes
    requires forall k: nat :: k < count ==> Possible(spec, k) != []
    requires count == Iterations(spec) || Possible(spec, count) == [] || Observed(spec, count + 1) > maxNodes
    ensures IsAllowed(spec, maxNodes, count)
  {
  }

  lemma BudgetStart(spec: GraphSpec)
    ensures WithoutEnd([spec.entry]) == Possible(spec, 0) && Observed(spec, 0) == 0
  {
    EndHasNoFrontier(spec);
    assert WithoutEnd([]) == [] && [spec.entry][..0] == [];
  }

  lemma BudgetNext(spec: GraphSpec, k: nat, observed: nat)
    requires WellFormed(spec) && k < Iterations(spec)
    requires observed == Observed(spec, k) <= k * MAX_NODES
    ensures var next := Dedup(PossibleTargets(spec.edges, Possible(spec, k)));
      next == Possible(spec, k + 1) == WithoutEnd(next)
    ensures SaturatingAdd(observed, |Possible(spec, k)|) == Observed(spec, k + 1) <= (k + 1) * MAX_NODES
  {
    hide Possible, Observed, WithoutEnd, Dedup, PossibleTargets;
    PossibleSmall(spec, k);
    NothingToRetain(spec, k + 1);
    PossibleNext(spec, k);
    IterationsBounded(spec);
    hide WellFormed, Iterations;
    assert Observed(spec, k + 1) <= (k + 1) * MAX_NODES <= MAX_ITERATIONS * MAX_NODES;
  }

  lemma PossibleNext(spec: GraphSpec, k: nat)
    ensures Possible(spec, k + 1) == Dedup(PossibleTargets(spec.edges, Possible(spec, k)))
    ensures Observed(spec, k + 1) == Observed(spec, k) + |Possible(spec, k)|
  {
  }

  lemma IterationsBounded(spec: GraphSpec)
    requires WellFormed(spec)
    ensures Iterations(spec) <= MAX_ITERATIONS
  {
  }

  function WithoutEnd(s: seq<string>): seq<string> {
    if s == [] then [] else WithoutEnd(s[..|s| - 1]) + if s[|s| - 1] == "END" then [] else [s[|s| - 1]]
  }

  method RetainNodes(nodes: seq<string>) returns (r: seq<string>)
    ensures r == WithoutEnd(nodes)
  {
    r := [];
    for i := 0 to |nodes|
      invariant r == WithoutEnd(nodes[..i])
    {
      assert nodes[..i + 1][..i] == nodes[..i];
      if nodes[i] != "END" {
        r := r + [nodes[i]];
      }
    }
    assert nodes[..|nodes|] == nodes;
  }

  lemma {:induction false} KeepsAll(s: seq<string>)
    requires "END" !in s
    ensures WithoutEnd(s) == s
    decreases |s|
  {
    if s != [] {
      KeepsAll(s[..|s| - 1]);
    }
  }

  lemma NothingToRetain(spec: GraphSpec, k: nat)
    ensures WithoutEnd(Possible(spec, k)) == Possible(spec, k)
  {
    KeepsAll(Possible(spec, k));
  }

  // ---- Soundness ------------------------------------------------------------------------

  /** The nodes executed in the first `n` supersteps. */
  function NodeCount(env: Env, start: Point, n: nat): nat {
    if n == 0 then 0
    else
      NodeCount(env, start, n - 1) +
        match After(env, start, n - 1)
        case Some(p) => |p.frontier|
        case None => 0
  }

  /** The real frontier stays within the conservative one. */
  lemma {:induction false} FrontierPossible(spec: GraphSpec, env: Env, start: Point, k: nat, id: string)
    requires FollowsEdges(spec, env, start) && spec.entry != "END"
    requires After(env, start, k).Some? && id in After(env, start, k).value.frontier
    ensures id in Possible(spec, k)
  {
    hide After;
    AfterNone(env, start);
    if k > 0 {
      var p := After(env, start, k - 1).value;
      assert StepFollows(spec, p, After(env, start, k).value);
      forall from | from in p.frontier ensures from in Possible(spec, k - 1) {
        FrontierPossible(spec, env, start, k - 1, from);
      }
      PossibleTarget(spec.edges, Possible(spec, k - 1), id);
    }
  }

  lemma FrontierSize(spec: GraphSpec, env: Env, start: Point, k: nat)
    requires FollowsEdges(spec, env, start) && spec.entry != "END" && After(env, start, k).Some?
    ensures |After(env, start, k).value.frontier| <= |Possible(spec, k)|
  {
    hide After, Possible;
    AfterNone(env, start);
    var f := After(env, start, k).value.frontier;
    if k > 0 {
      FrontierNoDup(env, start, k);
    }
    forall id | id in f ensures id in Possible(spec, k) {
      FrontierPossible(spec, env, start, k, id);
    }
    NoDupSubset(f, Possible(spec, k));
  }

  lemma {:induction false} CountWithinObserved(spec: GraphSpec, env: Env, start: Point, n: nat)
    requires FollowsEdges(spec, env, start) && spec.entry != "END"
    ensures NodeCount(env, start, n) <= Observed(spec, n)
  {
    hide After, Possible, FollowsEdges;
    if n > 0 {
      CountWithinObserved(spec, env, start, n - 1);
      if After(env, start, n - 1).Some? {
        FrontierSize(spec, env, start, n - 1);
      }
    }
  }

  lemma {:induction false} CountGrows(env: Env, start: Point, m: nat, n: nat)
    requires m <= n
    ensures NodeCount(env, start, m) <= NodeCount(env, start, n)
    decreases n
  {
    hide After;
    if m < n {
      CountGrows(env, start, m, n - 1);
    }
  }

  /** Main result. A run that follows the edges executes at most `maxNodes` nodes within the limit,
    * whichever edges are taken and whatever the cycles. */
  lemma BudgetSound(spec: GraphSpec, env: Env, start: Point, maxNodes: nat, allowed: nat, n: nat)
    requires FollowsEdges(spec, env, start) && IsAllowed(spec, maxNodes, allowed) && maxNodes >= 1
    requires n <= AtLeastOne(allowed)
    ensures NodeCount(env, start, n) <= maxNodes
  {
    hide After, Possible, Observed;
    CountGrows(env, start, n, AtLeastOne(allowed));
    if allowed == 0 {
      OneSuperstep(spec, env, start);
    } else {
      assert Possible(spec, 0) != [];
      EndHasNoFrontier(spec);
      CountWithinObserved(spec, env, start, allowed);
    }
  }

  lemma EndHasNoFrontier(spec: GraphSpec)
    ensures Possible(spec, 0) == if spec.entry == "END" then [] else [spec.entry]
    ensures Observed(spec, 0) == 0 && Observed(spec, 1) == |Possible(spec, 0)|
  {
    assert Observed(spec, 1) == Observed(spec, 0) + |Possible(spec, 0)|;
  }

  lemma OneSuperstep(spec: GraphSpec, env: Env, start: Point)
    requires FollowsEdges(spec, env, start)
    ensures NodeCount(env, start, 1) <= 1
  {
    AfterNone(env, start);
    assert NodeCount(env, start, 0) == 0;
  }

  /** With retries a node starts up to `attempts` times. */
  lemma {:induction false} CostBound(g: Graph, frontier: seq<string>, p: nat, attempts: nat)
    requires p <= |frontier| && forall name :: MaxAttempts(g, name) <= attempts
    ensures CostFrom(g, frontier, p) <= attempts * (|frontier| - p)
    decreases |frontier| - p
  {
    if p < |frontier| {
      CostBound(g, frontier, p + 1, attempts);
      assert attempts * (|frontier| - p) == attempts * (|frontier| - (p + 1)) + attempts;
    }
  }

  lemma {:induction false} WorkBound(env: Env, start: Point, n: nat, attempts: nat)
    requires forall name :: MaxAttempts(env.graph, name) <= attempts
    ensures Work(env, start, n) <= attempts * NodeCount(env, start, n)
  {
    hide After, CostFrom, MaxAttempts;
    if n > 0 {
      WorkBound(env, start, n - 1, attempts);
      var before := NodeCount(env, start, n - 1);
      match After(env, start, n - 1)
      case Some(p) =>
        CostBound(env.graph, p.frontier, 0, attempts);
        assert attempts * (before + |p.frontier|) == attempts * before + attempts * |p.frontier|;
      case None =>
    }
  }

  /** So an execution limited to that many supersteps starts at most `maxNodes` trials if nothing is
    * retried, and at most `attempts` times as many in general. */
  lemma BudgetCoversWork(spec: GraphSpec, env: Env, start: Point, maxNodes: nat, allowed: nat, n: nat, attempts: nat)
    requires FollowsEdges(spec, env, start) && IsAllowed(spec, maxNodes, allowed) && maxNodes >= 1
    requires n <= AtLeastOne(allowed)
    requires forall name :: MaxAttempts(env.graph, name) <= attempts
    ensures Work(env, start, n) <= attempts * maxNodes
  {
    hide After, FollowsEdges, IsAllowed, MaxAttempts, Work, NodeCount;
    BudgetSound(spec, env, start, maxNodes, allowed, n);
    WorkBound(env, start, n, attempts);
    var count := NodeCount(env, start, n);
    assert attempts * count <= attempts * maxNodes;
  }
}

/** The frontiers of a run that follows every edge, told from the specification alone. */
module Frontiers {
  import opened Values
  import opened AgentStates
  import opened Graphs
  import opened Sorting
  import opened EngineSpec
  import opened GraphSpecs
  import opened Chains
  import opened Compiling
  import opened Following
  import opened Budgets

  /** What a frontier leads to in the compiled graph, with repetitions. */
  function NextTargets(spec: GraphSpec, frontier: seq<string>): seq<string> {
    PossibleTargets(spec.edges, frontier) + if START in frontier then [spec.entry] else []
  }

  /** The nodes that do run in superstep `k` if every edge is followed. */
  function Actual(spec: GraphSpec, k: nat): (r: seq<string>)
    ensures NoDup(r)
  {
    if k == 0 then Dedup(StartList(spec)) else DropEnd(Dedup(NextTargets(spec, Actual(spec, k - 1))))
  }

  lemma NextTarget(spec: GraphSpec, frontier: seq<string>, id: string)
    ensures id in NextTargets(spec, frontier) <==> Follows(spec, frontier, id)
  {
    PossibleTarget(spec.edges, frontier, id);
  }

  lemma ActualNext(spec: GraphSpec, k: nat, id: string)
    ensures id in Actual(spec, k + 1) <==> id != END && Follows(spec, Actual(spec, k), id)
  {
    NextTarget(spec, Actual(spec, k), id);
    hide Follows;
  }

  lemma SameFollows(spec: GraphSpec, f: seq<string>, g: seq<string>, id: string)
    requires forall x :: x in f ==> x in g
    ensures Follows(spec, f, id) ==> Follows(spec, g, id)
  {
  }

  lemma {:induction false} ActualAreNodes(spec: GraphSpec, k: nat)
    requires WellFormed(spec)
    ensures forall id :: id in Actual(spec, k) ==> id in Ids(spec.nodes)
  {
    hide WellFormed, Follows, StartList;
    StartListExact(spec);
    if k > 0 {
      forall id | id in Actual(spec, k) ensures id in Ids(spec.nodes) {
        NextTarget(spec, Actual(spec, k - 1), id);
        FollowsIsNode(spec, Actual(spec, k - 1), id);
      }
    }
  }

  lemma {:induction false} FrontierActual(spec: GraphSpec, env: Env, start: Point, k: nat)
    requires WellFormed(spec) && Compiled(spec, env.graph) && NavigatesByEdges(env)
    requires start.frontier == StartList(spec) && After(env, start, k).Some?
    ensures forall id :: id in After(env, start, k).value.frontier <==> id in Actual(spec, k)
  {
    hide Compiled, NavigatesByEdges, After, WellFormed, Follows, StartList, NextTargets;
    AfterNone(env, start);
    RunIsExact(spec, env, start, k);
    if k > 0 {
      FrontierActual(spec, env, start, k - 1);
      var f, g := After(env, start, k - 1).value.frontier, Actual(spec, k - 1);
      forall id ensures id in After(env, start, k).value.frontier <==> id in Actual(spec, k) {
        NextTarget(spec, g, id);
        SameFollows(spec, f, g, id);
        SameFollows(spec, g, f, id);
      }
    }
  }

  /** No superstep fails: every run that has a frontier goes on. */
  ghost predicate Lasts(env: Env, start: Point) {
    forall n: nat :: After(env, start, n).Some? && After(env, start, n).value.frontier != [] ==>
      After(env, start, n + 1).Some?
  }

  lemma {:induction false} EmptyStays(spec: GraphSpec, m: nat, n: nat)
    requires m <= n && Actual(spec, m) == []
    ensures Actual(spec, n) == []
    decreases n
  {
    hide Actual;
    if m < n {
      EmptyStays(spec, m, n - 1);
      forall id ensures id !in Actual(spec, n) {
        ActualNext(spec, n - 1, id);
      }
      HeadIn(Actual(spec, n));
    }
  }

  lemma HeadIn(s: seq<string>)
    ensures s != [] ==> s[0] in s
  {
  }

  /** A run without failures goes on as long as its frontiers are not empty. */
  lemma {:induction false} LastingPoint(spec: GraphSpec, env: Env, start: Point, n: nat)
    requires WellFormed(spec) && Compiled(spec, env.graph) && NavigatesByEdges(env)
    requires start.frontier == StartList(spec) && Lasts(env, start)
    ensures After(env, start, n).None? ==> n > 0 && Actual(spec, n) == []
  {
    hide Compiled, NavigatesByEdges, WellFormed, StartList, Actual, After;
    AfterNone(env, start);
    if n > 0 {
      LastingPoint(spec, env, start, n - 1);
      if After(env, start, n).None? {
        if After(env, start, n - 1).Some? {
          assert After(env, start, n - 1 + 1).None?;
          FrontierActual(spec, env, start, n - 1);
          HeadIn(Actual(spec, n - 1));
        }
        EmptyStays(spec, n - 1, n);
      }
    }
  }

  lemma PassLasts(spec: GraphSpec, limits: Limits, start: Point)
    requires WellFormed(spec) && start.frontier == StartList(spec)
    ensures Lasts(SettingEnv(spec, limits, map[]), start)
  {
    hide WellFormed, SettingEnv, StartList, After;
    var env := SettingEnv(spec, limits, map[]);
    SettingFits(spec, limits, map[]);
    forall n: nat | After(env, start, n).Some? && After(env, start, n).value.frontier != []
      ensures After(env, start, n + 1).Some?
    {
      var p := After(env, start, n).value;
      RunIsExact(spec, env, start, n);
      PassContinue(spec, limits, p.data, p.frontier);
      AfterNext(env, start, n, p);
    }
  }

  lemma AfterNext(env: Env, start: Point, n: nat, p: Point)
    requires After(env, start, n) == Some(p)
    ensures After(env, start, n + 1) == Continue(env, p)
  {
  }
}

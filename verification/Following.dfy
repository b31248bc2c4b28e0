/** How the frontiers of a run relate to the declared edges. */
module Following {
  import opened Values
  import opened Reducers
  import opened AgentStates
  import opened Graphs
  import opened Sorting
  import opened Iteration
  import opened Merging
  import opened EngineSpec
  import opened GraphSpecs
  import opened Chains
  import opened Compiling

  /** A node of the frontier has a declared edge to `id`, which is a node. */
  ghost predicate Successor(edges: seq<EdgeSpec>, frontier: seq<string>, id: string) {
    id != "END" && exists from :: from in frontier && EdgeSpec(from, id) in edges
  }

  ghost predicate StepFollows(spec: GraphSpec, p: Point, q: Point) {
    forall id :: id in q.frontier ==> Successor(spec.edges, p.frontier, id)
  }

  /** The run begins at the entry, and every next frontier consists of declared successors of the one
    * before. Routers may break this: they navigate by command and ignore the edges. */
  ghost predicate FollowsEdges(spec: GraphSpec, env: Env, start: Point) {
    && (forall id :: id in start.frontier ==> id == spec.entry)
    && |start.frontier| <= 1
    && forall n: nat :: n > 0 && After(env, start, n).Some? ==>
         After(env, start, n - 1).Some? && StepFollows(spec, After(env, start, n - 1).value, After(env, start, n).value)
  }

  predicate Linked(spec: GraphSpec, from: string, to: string) {
    EdgeSpec(from, to) in spec.edges && to != "END"
  }

  /** A walk from the entry along declared edges between nodes. */
  ghost predicate EntryWalk(spec: GraphSpec, w: seq<string>) {
    w != [] && w[0] == spec.entry && forall i :: 0 < i < |w| ==> Linked(spec, w[i - 1], w[i])
  }

  /** Every frontier node ends a walk whose length is the number of supersteps. */
  lemma {:induction false} FrontierWalk(spec: GraphSpec, env: Env, start: Point, n: nat, id: string)
    returns (w: seq<string>)
    requires FollowsEdges(spec, env, start) && After(env, start, n).Some? && id in After(env, start, n).value.frontier
    ensures EntryWalk(spec, w) && |w| == n + 1 && w[n] == id
  {
    hide After;
    AfterNone(env, start);
    if n == 0 {
      w := [id];
    } else {
      var p, q := After(env, start, n - 1).value, After(env, start, n).value;
      assert StepFollows(spec, p, q);
      var from :| from in p.frontier && EdgeSpec(from, id) in spec.edges;
      var v := FrontierWalk(spec, env, start, n - 1, from);
      w := v + [id];
      assert Linked(spec, from, id);
    }
  }

  // ---- Nodes that leave navigation to the edges ---------------------------------------------

  predicate ByEdges(output: NodeOutput) {
    output.Done? || output.goto.Default?
  }

  ghost predicate NavigatesByEdges(env: Env) {
    forall name, data, k :: name in env.graph.nodes ==>
      var outcome := env.graph.nodes[name](data, k).outcome; outcome.Ok? ==> ByEdges(outcome.value)
  }

  lemma FamilyByEdges(env: Env, name: string, data: Data)
    requires NavigatesByEdges(env) && name in env.graph.nodes && FamilyFrom(env, name, data, 0).FamilyOk?
    ensures ByEdges(FamilyFrom(env, name, data, 0).output)
  {
    var last := FamilyTrials(env, name, data);
    assert env.graph.nodes[name](DataBefore(env, name, data, last), last).outcome.Ok?;
  }

  /** Nodes that store fixed values, if any, and leave navigation to the edges. */
  function Setting(values: map<string, Data>): string -> ((Data, nat) -> Trial) {
    id => (data, k) => if id in values then Trial(data + values[id], |values[id]|, Ok(Done)) else Trial(data, 0, Ok(Done))
  }

  function SettingEnv(spec: GraphSpec, limits: Limits, values: map<string, Data>): Env {
    Env(GraphOf(spec, Setting(values)), limits, spec.reducers)
  }

  lemma SettingFits(spec: GraphSpec, limits: Limits, values: map<string, Data>)
    requires WellFormed(spec)
    ensures Compiled(spec, SettingEnv(spec, limits, values).graph) && NavigatesByEdges(SettingEnv(spec, limits, values))
  {
    hide WellFormed;
    GraphOfCompiled(spec, Setting(values));
  }

  function Settled(values: map<string, Data>, id: string, data: Data): Data {
    data + if id in values then values[id] else map[]
  }

  lemma SettingTrial(spec: GraphSpec, limits: Limits, values: map<string, Data>, id: string, data: Data)
    requires id in Ids(spec.nodes)
    ensures var nodes := SettingEnv(spec, limits, values).graph.nodes;
      id in nodes && nodes[id](data, 0).data == Settled(values, id, data) && nodes[id](data, 0).outcome == Ok(Done)
  {
    hide CompiledEdges;
    assert SettingEnv(spec, limits, values).graph.nodes[id] == Setting(values)(id);
    assert id !in values ==> data + map[] == data;
  }

  lemma SettingFamily(spec: GraphSpec, limits: Limits, values: map<string, Data>, id: string, data: Data)
    requires id in Ids(spec.nodes)
    ensures var env := SettingEnv(spec, limits, values);
      id in env.graph.nodes && FamilyFrom(env, id, data, 0) == FamilyOk(Settled(values, id, data), Done)
  {
    SettingTrial(spec, limits, values, id, data);
    hide SettingEnv, Settled, AfterTrial;
    DoneKeepsData(SettingEnv(spec, limits, values), id, Settled(values, id, data));
  }

  lemma DoneKeepsData(env: Env, id: string, data: Data)
    requires id in env.graph.nodes
    ensures AfterTrial(env, id, data, 0, Ok(Done)) == FamilyOk(data, Done)
  {
    assert UpdateWrites(env, data, map[]) == map[];
    assert data + map[] == data;
  }

  // ---- What compiled edges lead to ------------------------------------------------------------

  function Targets(ids: seq<string>): (r: seq<string>)
    ensures |r| == |ids| && forall i :: 0 <= i < |r| ==> r[i] == TargetOf(ids[i])
  {
    seq(|ids|, i requires 0 <= i < |ids| => TargetOf(ids[i]))
  }

  /** The targets of a node, in order. A node may bear the name of the virtual start node; then it also
    * leads to the entry. */
  function CompiledTargets(spec: GraphSpec, id: string): seq<string> {
    (if id == START then [spec.entry] else []) + Targets(Succ(spec.edges, id))
  }

  ghost predicate Leads(spec: GraphSpec, from: string, target: string) {
    || (from == START && target == spec.entry)
    || exists to :: EdgeSpec(from, to) in spec.edges && TargetOf(to) == target
  }

  /** Where a frontier leads: to the declared successors, and from a node with the name of the virtual
    * start node back to the entry. */
  ghost predicate Follows(spec: GraphSpec, frontier: seq<string>, id: string) {
    Successor(spec.edges, frontier, id) || (START in frontier && id == spec.entry)
  }

  /** The first frontier of a run from the entry. */
  function StartList(spec: GraphSpec): seq<string> {
    DropEnd(if spec.entry == START then CompiledTargets(spec, START) else [spec.entry])
  }

  lemma {:induction false} RoutePlain(edges: seq<EdgeType>, names: seq<string>, data: Data)
    requires |edges| == |names| && forall i :: 0 <= i < |edges| ==> edges[i] == Normal(names[i])
    ensures RouteAll(edges, data) == Ok(names)
    decreases |edges|
  {
    if edges != [] {
      var n := |edges| - 1;
      RoutePlain(edges[..n], names[..n], data);
      assert names[..n] + [names[n]] == names;
    }
  }

  lemma EdgeTargetsExact(spec: GraphSpec, g: Graph, data: Data, id: string)
    requires Compiled(spec, g)
    ensures EdgeTargets(g, data, id) == Ok(CompiledTargets(spec, id))
  {
    hide RouteAll, Succ;
    assert EdgeList(g.edges, id) == CompiledEdges(spec, id) == EdgesOut(spec.entry, spec.edges, id);
    hide Compiled;
    RoutePlain(EdgesOut(spec.entry, spec.edges, id), CompiledTargets(spec, id), data);
    if id !in g.edges {
      assert CompiledTargets(spec, id) == [];
    }
  }

  lemma TargetsLead(spec: GraphSpec, id: string)
    ensures forall t :: t in CompiledTargets(spec, id) <==> Leads(spec, id, t)
  {
    hide Succ;
    var succ := Succ(spec.edges, id);
    forall t ensures t in Targets(succ) <==> exists to :: EdgeSpec(id, to) in spec.edges && TargetOf(to) == t {
      if t in Targets(succ) {
        var i :| 0 <= i < |succ| && Targets(succ)[i] == t;
        SuccMember(spec.edges, id, succ[i]);
      }
      if to :| EdgeSpec(id, to) in spec.edges && TargetOf(to) == t {
        SuccMember(spec.edges, id, to);
        var i :| 0 <= i < |succ| && succ[i] == to;
        assert Targets(succ)[i] == t;
      }
    }
  }

  lemma {:induction false} ResolveAllExact(spec: GraphSpec, g: Graph, data: Data, results: seq<BranchResult>)
    requires Compiled(spec, g)
    requires forall i :: 0 <= i < |results| ==> ByEdges(results[i].output)
    ensures ResolveAll(g, data, results).Ok?
    ensures forall t :: t in ResolveAll(g, data, results).value <==>
      exists i :: 0 <= i < |results| && Leads(spec, results[i].name, t)
  {
    hide Compiled, Leads, CompiledTargets;
    if results != [] {
      var n := |results| - 1;
      ResolveAllExact(spec, g, data, results[..n]);
      EdgeTargetsExact(spec, g, data, results[n].name);
      TargetsLead(spec, results[n].name);
      forall t
        ensures t in ResolveAll(g, data, results).value <==>
          exists i :: 0 <= i < |results| && Leads(spec, results[i].name, t)
      {
        if i :| 0 <= i < n && Leads(spec, results[..n][i].name, t) {
          assert Leads(spec, results[i].name, t);
        }
      }
    }
  }

  /** The targets of a superstep are exactly what the compiled edges of its frontier lead to. */
  lemma SuperstepTargets(spec: GraphSpec, env: Env, data: Data, frontier: seq<string>)
    requires Compiled(spec, env.graph) && NavigatesByEdges(env) && Superstep(env, data, frontier).Some?
    ensures forall t :: t in Superstep(env, data, frontier).value.1 <==>
      exists from :: from in frontier && Leads(spec, from, t)
  {
    hide Compiled, Leads, FamilyFrom, NavigatesByEdges, CompiledTargets;
    var targets := Superstep(env, data, frontier).value.1;
    if |frontier| == 1 {
      FamilyByEdges(env, frontier[0], data);
      var r := ResultOf(env, data, frontier[0]);
      assert [frontier[0]][0] == frontier[0];
      EdgeTargetsExact(spec, env.graph, r.data, frontier[0]);
      TargetsLead(spec, frontier[0]);
      forall t ensures t in targets <==> exists from :: from in frontier && Leads(spec, from, t) {
        assert forall from :: from in frontier <==> from == frontier[0];
      }
    } else {
      ParallelTargets(spec, env, data, frontier);
    }
  }

  lemma ParallelTargets(spec: GraphSpec, env: Env, data: Data, frontier: seq<string>)
    requires Compiled(spec, env.graph) && NavigatesByEdges(env) && ParallelStep(env, data, frontier).Some?
    ensures forall t :: t in ParallelStep(env, data, frontier).value.1 <==>
      exists from :: from in frontier && Leads(spec, from, t)
  {
    hide Compiled, Leads, FamilyFrom, NavigatesByEdges, SortByKey;
    var results := BranchResults(env, data, frontier);
    var sorted := SortByKey(results, OrderKey(frontier));
    forall i | 0 <= i < |sorted| ensures sorted[i].name in frontier && ByEdges(sorted[i].output) {
      assert sorted[i] in multiset(results);
      var j :| 0 <= j < |results| && results[j] == sorted[i];
      FamilyByEdges(env, frontier[j], data);
    }
    var merged := ParallelStep(env, data, frontier).value.0;
    ResolveAllExact(spec, env.graph, merged, sorted);
    forall t, from | from in frontier && Leads(spec, from, t)
      ensures exists i :: 0 <= i < |sorted| && Leads(spec, sorted[i].name, t)
    {
      var j :| 0 <= j < |frontier| && frontier[j] == from;
      assert results[j] in multiset(sorted);
      var i :| 0 <= i < |sorted| && sorted[i] == results[j];
    }
  }

  /** In a compiled graph whose nodes navigate by edges every declared edge is followed, and a node with
    * the name of the virtual start node leads back to the entry. */
  lemma ContinueExact(spec: GraphSpec, env: Env, p: Point)
    requires Compiled(spec, env.graph) && NavigatesByEdges(env) && Continue(env, p).Some?
    ensures forall id :: id in Continue(env, p).value.frontier <==> id != END && Follows(spec, p.frontier, id)
  {
    hide Compiled, NavigatesByEdges, Superstep;
    SuperstepTargets(spec, env, p.data, p.frontier);
    var targets := Superstep(env, p.data, p.frontier).value.1;
    hide Leads, Follows;
    forall id ensures id in Continue(env, p).value.frontier <==> id != END && Follows(spec, p.frontier, id) {
      assert id in Continue(env, p).value.frontier <==> id in targets && id != END;
      if id != END {
        LeadsFollows(spec, p.frontier, id);
      }
    }
  }

  lemma LeadsFollows(spec: GraphSpec, frontier: seq<string>, id: string)
    requires id != END
    ensures (exists from :: from in frontier && Leads(spec, from, id)) <==> Follows(spec, frontier, id)
  {
    if Successor(spec.edges, frontier, id) {
      var from :| from in frontier && EdgeSpec(from, id) in spec.edges;
      assert Leads(spec, from, id);
    } else if START in frontier && id == spec.entry {
      assert Leads(spec, START, id);
    }
  }

  lemma SuccessorsAreNodes(spec: GraphSpec, frontier: seq<string>, id: string)
    requires WellFormed(spec) && Successor(spec.edges, frontier, id)
    ensures id in Ids(spec.nodes)
  {
    var from :| from in frontier && EdgeSpec(from, id) in spec.edges;
    EdgeTarget(spec, EdgeSpec(from, id));
  }

  lemma FollowsIsNode(spec: GraphSpec, frontier: seq<string>, id: string)
    requires WellFormed(spec) && Follows(spec, frontier, id)
    ensures id in Ids(spec.nodes)
  {
    if Successor(spec.edges, frontier, id) {
      SuccessorsAreNodes(spec, frontier, id);
    }
  }

  lemma StartIsList(spec: GraphSpec, env: Env, data: Data, start: Point)
    requires Compiled(spec, env.graph) && StartsAt(env, data, spec.entry, start)
    ensures start == Point(data, StartList(spec))
  {
    hide Compiled, EdgeTargets;
    EdgeTargetsExact(spec, env.graph, data, START);
  }

  /** The first frontier is the entry alone, unless the entry bears the name of the virtual start node:
    * then it is that node and its successors. */
  lemma StartListExact(spec: GraphSpec)
    requires WellFormed(spec)
    ensures forall id :: id in StartList(spec) <==>
      id != END && (id == spec.entry || (spec.entry == START && Successor(spec.edges, [START], id)))
    ensures forall id :: id in StartList(spec) ==> id in Ids(spec.nodes)
    ensures spec.entry != START ==> StartList(spec) == if spec.entry == END then [] else [spec.entry]
  {
    assert spec.entry in Ids(spec.nodes);
    if spec.entry == START {
      TargetsLead(spec, START);
      forall id | id != END ensures Leads(spec, START, id) <==> Follows(spec, [START], id) {
        LeadsFollows(spec, [START], id);
        assert forall from :: from in [START] <==> from == START;
      }
      forall id | Successor(spec.edges, [START], id) ensures id in Ids(spec.nodes) {
        SuccessorsAreNodes(spec, [START], id);
      }
    } else {
      assert [spec.entry][..0] == [];
      assert DropEnd([]) == [];
    }
  }

  /** All nodes of a run are declared, and every next frontier is exactly what the edges lead to. */
  lemma {:induction false} RunIsExact(spec: GraphSpec, env: Env, start: Point, n: nat)
    requires WellFormed(spec) && Compiled(spec, env.graph) && NavigatesByEdges(env)
    requires start.frontier == StartList(spec) && After(env, start, n).Some?
    ensures forall id :: id in After(env, start, n).value.frontier ==> id in Ids(spec.nodes)
    ensures n > 0 ==>
      && After(env, start, n - 1).Some?
      && forall id :: id in After(env, start, n).value.frontier <==>
           id != END && Follows(spec, After(env, start, n - 1).value.frontier, id)
  {
    hide Compiled, NavigatesByEdges, WellFormed, Continue, Follows, StartList;
    if n == 0 {
      StartListExact(spec);
    } else {
      RunIsExact(spec, env, start, n - 1);
      var p := After(env, start, n - 1).value;
      ContinueExact(spec, env, p);
      forall id | Follows(spec, p.frontier, id) ensures id in Ids(spec.nodes) {
        FollowsIsNode(spec, p.frontier, id);
      }
    }
  }

  // ---- Commands that stay within the edges ------------------------------------------------------

  /** The nodes a command names. */
  function Named(goto: Navigation): seq<string> {
    match goto
    case Default => []
    case GotoNode(n) => [n]
    case GotoNodes(ns) => ns
    case GotoEnd => [END]
    case Send(ops) => SendTargets(ops)
  }

  /** The node leaves navigation to the edges, or names declared successors, or the end. */
  ghost predicate WithinEdges(spec: GraphSpec, id: string, output: NodeOutput) {
    ByEdges(output) || forall t :: t in Named(output.goto) ==> t == END || Linked(spec, id, t)
  }

  ghost predicate NavigatesWithin(spec: GraphSpec, env: Env) {
    forall name, data, k :: name in env.graph.nodes ==>
      var outcome := env.graph.nodes[name](data, k).outcome; outcome.Ok? ==> WithinEdges(spec, name, outcome.value)
  }

  lemma FamilyWithin(spec: GraphSpec, env: Env, name: string, data: Data)
    requires NavigatesWithin(spec, env) && name in env.graph.nodes && FamilyFrom(env, name, data, 0).FamilyOk?
    ensures WithinEdges(spec, name, FamilyFrom(env, name, data, 0).output)
  {
    var last := FamilyTrials(env, name, data);
    assert env.graph.nodes[name](DataBefore(env, name, data, last), last).outcome.Ok?;
  }

  /** What a frontier leads to, but for the end. */
  ghost predicate AllLead(spec: GraphSpec, frontier: seq<string>, targets: seq<string>) {
    forall t :: t in targets ==> t == END || exists from :: from in frontier && Leads(spec, from, t)
  }

  lemma OutputLeads(spec: GraphSpec, g: Graph, data: Data, id: string, output: NodeOutput)
    requires Compiled(spec, g) && WithinEdges(spec, id, output)
    ensures ResolveOutput(g, data, id, output).Ok?
    ensures forall t :: t in ResolveOutput(g, data, id, output).value ==> t == END || Leads(spec, id, t)
  {
    hide Compiled, CompiledTargets;
    EdgeTargetsExact(spec, g, data, id);
    TargetsLead(spec, id);
    hide EdgeTargets;
    if !ByEdges(output) {
      forall t | t in Named(output.goto) && t != END ensures Leads(spec, id, t) {
        assert Linked(spec, id, t);
      }
    }
  }

  lemma {:induction false} ResolveAllWithin(spec: GraphSpec, g: Graph, data: Data, results: seq<BranchResult>,
                                            frontier: seq<string>)
    requires Compiled(spec, g)
    requires forall i :: 0 <= i < |results| ==>
      results[i].name in frontier && WithinEdges(spec, results[i].name, results[i].output)
    ensures ResolveAll(g, data, results).Ok? && AllLead(spec, frontier, ResolveAll(g, data, results).value)
  {
    hide Compiled, Leads, WithinEdges, ResolveOutput;
    if results != [] {
      var n := |results| - 1;
      ResolveAllWithin(spec, g, data, results[..n], frontier);
      OutputLeads(spec, g, data, results[n].name, results[n].output);
    }
  }

  lemma SuperstepWithin(spec: GraphSpec, env: Env, data: Data, frontier: seq<string>)
    requires Compiled(spec, env.graph) && NavigatesWithin(spec, env) && Superstep(env, data, frontier).Some?
    ensures AllLead(spec, frontier, Superstep(env, data, frontier).value.1)
  {
    hide Compiled, Leads, FamilyFrom, NavigatesWithin, WithinEdges, ResolveOutput;
    if |frontier| == 1 {
      FamilyWithin(spec, env, frontier[0], data);
      var r := ResultOf(env, data, frontier[0]);
      assert [frontier[0]][0] == frontier[0];
      OutputLeads(spec, env.graph, r.data, frontier[0], r.output);
    } else {
      ParallelWithin(spec, env, data, frontier);
    }
  }

  lemma ParallelWithin(spec: GraphSpec, env: Env, data: Data, frontier: seq<string>)
    requires Compiled(spec, env.graph) && NavigatesWithin(spec, env) && ParallelStep(env, data, frontier).Some?
    ensures AllLead(spec, frontier, ParallelStep(env, data, frontier).value.1)
  {
    hide Compiled, Leads, FamilyFrom, NavigatesWithin, WithinEdges, SortByKey, AllLead;
    var results := BranchResults(env, data, frontier);
    var sorted := SortByKey(results, OrderKey(frontier));
    forall i | 0 <= i < |sorted| ensures sorted[i].name in frontier && WithinEdges(spec, sorted[i].name, sorted[i].output) {
      assert sorted[i] in multiset(results);
      var j :| 0 <= j < |results| && results[j] == sorted[i];
      FamilyWithin(spec, env, frontier[j], data);
    }
    ResolveAllWithin(spec, env.graph, ParallelStep(env, data, frontier).value.0, sorted, frontier);
  }

  /** Every next frontier consists of nodes the compiled edges lead to. */
  lemma ContinueWithin(spec: GraphSpec, env: Env, p: Point)
    requires Compiled(spec, env.graph) && NavigatesWithin(spec, env) && Continue(env, p).Some?
    ensures forall id :: id in Continue(env, p).value.frontier ==> Follows(spec, p.frontier, id)
  {
    hide Compiled, NavigatesWithin, Superstep;
    SuperstepWithin(spec, env, p.data, p.frontier);
    var targets := Superstep(env, p.data, p.frontier).value.1;
    hide Leads, Follows;
    forall id | id in Continue(env, p).value.frontier ensures Follows(spec, p.frontier, id) {
      assert id in targets && id != END;
      LeadsFollows(spec, p.frontier, id);
    }
  }

  lemma {:induction false} WithinDeclared(spec: GraphSpec, env: Env, start: Point, n: nat)
    requires WellFormed(spec) && Compiled(spec, env.graph) && NavigatesWithin(spec, env)
    requires start.frontier == StartList(spec) && After(env, start, n).Some?
    ensures forall id :: id in After(env, start, n).value.frontier ==> id in Ids(spec.nodes)
    ensures n > 0 ==>
      && After(env, start, n - 1).Some?
      && forall id :: id in After(env, start, n).value.frontier ==>
        Follows(spec, After(env, start, n - 1).value.frontier, id)
  {
    hide Compiled, NavigatesWithin, WellFormed, Continue, Follows, StartList;
    if n == 0 {
      StartListExact(spec);
    } else {
      WithinDeclared(spec, env, start, n - 1);
      var p := After(env, start, n - 1).value;
      ContinueWithin(spec, env, p);
      forall id | Follows(spec, p.frontier, id) ensures id in Ids(spec.nodes) {
        FollowsIsNode(spec, p.frontier, id);
      }
    }
  }

  /** If no node bears the name of the virtual start node, such a run follows the edges. */
  lemma WithinFollowsEdges(spec: GraphSpec, env: Env, start: Point)
    requires WellFormed(spec) && Compiled(spec, env.graph) && NavigatesWithin(spec, env)
    requires start.frontier == StartList(spec) && START !in Ids(spec.nodes)
    ensures FollowsEdges(spec, env, start)
  {
    hide Compiled, NavigatesWithin, After, WellFormed, StartList;
    forall n: nat | n > 0 && After(env, start, n).Some?
      ensures After(env, start, n - 1).Some?
      ensures StepFollows(spec, After(env, start, n - 1).value, After(env, start, n).value)
    {
      WithinDeclared(spec, env, start, n);
      WithinDeclared(spec, env, start, n - 1);
    }
    StartListExact(spec);
    EntryIsNode(spec);
  }

  /** The way back to the entry is closed, or declared as an edge. */
  ghost predicate NoWayBack(spec: GraphSpec, frontier: seq<string>) {
    START in frontier && spec.entry != END ==> Successor(spec.edges, frontier, spec.entry)
  }

  /** Exactly when such a run follows the edges: it begins with the entry alone, and no superstep runs a
    * node with the name of the virtual start node from where the entry is no declared successor. */
  lemma CompiledFollowsEdges(spec: GraphSpec, env: Env, start: Point)
    requires WellFormed(spec) && Compiled(spec, env.graph) && NavigatesByEdges(env)
    requires start.frontier == StartList(spec)
    ensures FollowsEdges(spec, env, start) <==>
      && (forall id :: id in start.frontier ==> id == spec.entry) && |start.frontier| <= 1
      && forall n: nat :: n > 0 && After(env, start, n).Some? ==>
           After(env, start, n - 1).Some? && NoWayBack(spec, After(env, start, n - 1).value.frontier)
    ensures START !in Ids(spec.nodes) ==> FollowsEdges(spec, env, start)
  {
    hide Compiled, NavigatesByEdges, After, WellFormed, StartList, NoWayBack;
    forall n: nat | n > 0 && After(env, start, n).Some?
      ensures After(env, start, n - 1).Some?
      ensures var p, q := After(env, start, n - 1).value, After(env, start, n).value;
        && (StepFollows(spec, p, q) <==> NoWayBack(spec, p.frontier))
        && (START !in Ids(spec.nodes) ==> NoWayBack(spec, p.frontier))
    {
      RunIsExact(spec, env, start, n);
      RunIsExact(spec, env, start, n - 1);
      FollowsIffNoWayBack(spec, After(env, start, n - 1).value, After(env, start, n).value);
    }
    StartListExact(spec);
    EntryIsNode(spec);
  }

  lemma FollowsIffNoWayBack(spec: GraphSpec, p: Point, q: Point)
    requires forall id :: id in q.frontier <==> id != END && Follows(spec, p.frontier, id)
    ensures StepFollows(spec, p, q) <==> NoWayBack(spec, p.frontier)
    ensures START !in p.frontier ==> NoWayBack(spec, p.frontier)
  {
    if START in p.frontier && spec.entry != END {
      assert Follows(spec, p.frontier, spec.entry);
      assert spec.entry in q.frontier;
    }
  }

  lemma EntryIsNode(spec: GraphSpec)
    requires WellFormed(spec)
    ensures spec.entry in Ids(spec.nodes)
  {
  }

  /** Conversely every entry walk is followed, as long as the run gets that far and no node of the walk
    * is called like the end of a graph. */
  lemma {:induction false} WalkReached(spec: GraphSpec, env: Env, start: Point, w: seq<string>)
    requires WellFormed(spec) && Compiled(spec, env.graph) && NavigatesByEdges(env)
    requires start.frontier == StartList(spec) && END !in w
    requires EntryWalk(spec, w) && After(env, start, |w| - 1).Some?
    ensures w[|w| - 1] in After(env, start, |w| - 1).value.frontier
    decreases |w|
  {
    hide Compiled, NavigatesByEdges, WellFormed, Continue, StartList;
    var n := |w| - 1;
    assert w[n] != END && w[0] != END;
    if n == 0 {
      StartListExact(spec);
    } else {
      RunIsExact(spec, env, start, n);
      var v := w[..n];
      forall i | 0 < i < |v| ensures Linked(spec, v[i - 1], v[i]) {
        assert Linked(spec, w[i - 1], w[i]);
      }
      WalkReached(spec, env, start, v);
      assert Linked(spec, w[n - 1], w[n]);
      assert Successor(spec.edges, After(env, start, n - 1).value.frontier, w[n]);
    }
  }

  /** A superstep of one node that succeeds and leads to `targets`. */
  lemma OneStep(env: Env, data: Data, id: string, targets: seq<string>)
    requires id in env.graph.nodes && NavigatesByEdges(env)
    requires env.graph.interruptBefore == {} && env.graph.interruptAfter == {}
    requires FamilyFrom(env, id, data, 0).FamilyOk? ==>
      EdgeTargets(env.graph, FamilyFrom(env, id, data, 0).data, id) == Ok(targets)
    ensures Continue(env, Point(data, [id])) ==
      match FamilyFrom(env, id, data, 0)
      case FamilyOk(next, _) => Some(Point(next, DropEnd(Dedup(targets))))
      case _ => None
  {
    hide NavigatesByEdges, FamilyFrom, EdgeTargets, Dedup, DropEnd;
    assert !Interrupts({}, [id]) && [id][0] == id;
    assert Superstep(env, data, [id]) == SingleStep(env, data, id);
    if FamilyFrom(env, id, data, 0).FamilyOk? {
      FamilyByEdges(env, id, data);
    }
  }

  lemma SettingContinue(spec: GraphSpec, limits: Limits, values: map<string, Data>, id: string, data: Data)
    requires WellFormed(spec) && id in Ids(spec.nodes)
    ensures Continue(SettingEnv(spec, limits, values), Point(data, [id])) ==
      Some(Point(Settled(values, id, data), DropEnd(Dedup(CompiledTargets(spec, id)))))
  {
    var env := SettingEnv(spec, limits, values);
    SettingFits(spec, limits, values);
    assert env.graph.interruptBefore == {} && env.graph.interruptAfter == {};
    hide SettingEnv, WellFormed, NavigatesByEdges, Compiled, FamilyFrom, EdgeTargets, CompiledTargets, Settled, Continue;
    SettingFamily(spec, limits, values, id, data);
    EdgeTargetsExact(spec, env.graph, Settled(values, id, data), id);
    OneStep(env, data, id, CompiledTargets(spec, id));
  }

  /** Nodes that store nothing never fail. */
  lemma PassContinue(spec: GraphSpec, limits: Limits, data: Data, frontier: seq<string>)
    requires WellFormed(spec) && frontier != [] && forall id :: id in frontier ==> id in Ids(spec.nodes)
    ensures Continue(SettingEnv(spec, limits, map[]), Point(data, frontier)).Some?
  {
    if |frontier| == 1 {
      assert frontier == [frontier[0]];
      SettingContinue(spec, limits, map[], frontier[0], data);
    } else {
      PassParallel(spec, limits, data, frontier);
      assert !Interrupts({}, frontier);
    }
  }

  lemma PassParallel(spec: GraphSpec, limits: Limits, data: Data, frontier: seq<string>)
    requires WellFormed(spec) && forall id :: id in frontier ==> id in Ids(spec.nodes)
    ensures ParallelStep(SettingEnv(spec, limits, map[]), data, frontier).Some?
  {
    hide WellFormed, SettingEnv, SortByKey, Compiled, NavigatesByEdges, FamilyFrom, Merge, ResolveAll;
    var env := SettingEnv(spec, limits, map[]);
    SettingFits(spec, limits, map[]);
    forall i | 0 <= i < |frontier|
      ensures frontier[i] in env.graph.nodes && FamilyFrom(env, frontier[i], data, 0) == FamilyOk(data, Done)
    {
      SettingFamily(spec, limits, map[], frontier[i], data);
      assert data + map[] == data;
    }
    var sorted := SortByKey(BranchResults(env, data, frontier), OrderKey(frontier));
    forall i | 0 <= i < |sorted| ensures sorted[i].data == data && ByEdges(sorted[i].output) {
      assert sorted[i] in multiset(BranchResults(env, data, frontier));
    }
    NothingMerged(env.limits, env.reducers, data, Forks(sorted));
    ResolveAllExact(spec, env.graph, data, sorted);
  }

  lemma NothingMerged(l: Limits, reducers: map<string, Reducer>, data: Data, forks: seq<Data>)
    requires forall i :: 0 <= i < |forks| ==> forks[i] == data
    ensures Merge(l, reducers, data, forks) == Some(data)
  {
    forall key ensures ChangedValues(data, forks, key) == [] {
      NothingChanged(data, forks, key);
    }
    assert Changes(data, forks) == map[];
    assert FoldedWrites(reducers, data, map[]) == map[];
    assert data + map[] == data;
  }

  lemma {:induction false} NothingChanged(data: Data, forks: seq<Data>, key: string)
    requires forall i :: 0 <= i < |forks| ==> forks[i] == data
    ensures ChangedValues(data, forks, key) == []
    decreases |forks|
  {
    if forks != [] {
      NothingChanged(data, forks[..|forks| - 1], key);
    }
  }
}

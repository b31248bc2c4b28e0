/** From a declarative specification to an executable graph
  * (agent-graph-mcp/src/compiler.rs, agent-graph/src/builder.rs). */
module Compiling {
  import opened Values
  import opened Reducers
  import opened Graphs
  import opened Sorting
  import opened Merging
  import opened EngineSpec
  import opened GraphSpecs
  import opened Chains

  predicate Executable(nodeType: NodeType) {
    !nodeType.External? && !nodeType.Tool? && !nodeType.Loop?
  }

  function TargetOf(to: string): string {
    if to == "END" then END else to
  }

  function Normals(ids: seq<string>): (r: seq<EdgeType>)
    ensures |r| == |ids| && forall i :: 0 <= i < |r| ==> r[i] == Normal(TargetOf(ids[i]))
  {
    seq(|ids|, i requires 0 <= i < |ids| => Normal(TargetOf(ids[i])))
  }

  function EdgeList(edges: map<string, seq<EdgeType>>, id: string): seq<EdgeType> {
    if id in edges then edges[id] else []
  }

  /** The edges out of a node; the virtual start node also leads to the entry. */
  function CompiledEdges(spec: GraphSpec, id: string): seq<EdgeType> {
    EdgesOut(spec.entry, spec.edges, id)
  }

  function EdgesOut(entry: string, edges: seq<EdgeSpec>, id: string): seq<EdgeType> {
    (if id == START then [Normal(entry)] else []) + Normals(Succ(edges, id))
  }

  ghost predicate Compiled(spec: GraphSpec, g: Graph) {
    && g.nodes.Keys == (set id | id in Ids(spec.nodes))
    && (forall id :: EdgeList(g.edges, id) == CompiledEdges(spec, id))
    && g.maxIterations == Iterations(spec) && !g.cycleDetection
    && g.interruptBefore == {} && g.interruptAfter == {}
  }

  datatype CompileError = NotExecutable(id: string) | NodeMissing(from: string, to: string)

  /** An edge may lead to a node, to the end, or back to the virtual start node. */
  predicate Buildable(spec: GraphSpec, to: string) {
    to == END || to in Ids(spec.nodes) || to == START
  }

  ghost predicate AllExecutable(spec: GraphSpec) {
    forall i :: 0 <= i < |spec.nodes| ==> spec.nodes[i].nodeType !in {External, Tool, NodeType.Loop}
  }

  /** One of the two reserved names or the name of a node. */
  ghost predicate KnownName(spec: GraphSpec, to: string) {
    to in {"__start__", "__end__"} || exists i :: 0 <= i < |spec.nodes| && spec.nodes[i].id == to
  }

  lemma BuildableIsKnown(spec: GraphSpec, to: string)
    ensures Buildable(spec, to) <==> KnownName(spec, to)
  {
    if i :| 0 <= i < |spec.nodes| && spec.nodes[i].id == to {
      assert Ids(spec.nodes)[i] == to;
    }
  }

  ghost predicate EdgesBuildable(spec: GraphSpec) {
    KnownName(spec, spec.entry) && forall i :: 0 <= i < |spec.edges| ==> KnownName(spec, TargetOf(spec.edges[i].to))
  }

  ghost predicate EdgesAdded(edges: map<string, seq<EdgeType>>, entry: string, added: seq<EdgeSpec>) {
    forall id :: EdgeList(edges, id) == EdgesOut(entry, added, id)
  }

  method AddEdge(edges: map<string, seq<EdgeType>>, from: string, to: string) returns (r: map<string, seq<EdgeType>>)
    ensures forall id :: EdgeList(r, id) == EdgeList(edges, id) + if id == from then [Normal(to)] else []
  {
    r := edges[from := (if from in edges then edges[from] else []) + [Normal(to)]];
  }

  method CompileEdges(spec: GraphSpec) returns (edges: map<string, seq<EdgeType>>)
    ensures forall id :: EdgeList(edges, id) == CompiledEdges(spec, id)
  {
    edges := AddEdge(map[], START, spec.entry);
    assert EdgesAdded(edges, spec.entry, []);
    for i := 0 to |spec.edges|
      invariant EdgesAdded(edges, spec.entry, spec.edges[..i])
    {
      hide EdgesAdded;
      ghost var before := edges;
      edges := AddEdge(edges, spec.edges[i].from, TargetOf(spec.edges[i].to));
      EdgesAddedNext(before, edges, spec.entry, spec.edges[..i], spec.edges[i], spec.edges[..i + 1]);
    }
    assert spec.edges[..|spec.edges|] == spec.edges;
  }

  lemma EdgesAddedNext(before: map<string, seq<EdgeType>>, edges: map<string, seq<EdgeType>>, entry: string,
                       added: seq<EdgeSpec>, next: EdgeSpec, more: seq<EdgeSpec>)
    requires EdgesAdded(before, entry, added) && more == added + [next]
    requires forall id :: EdgeList(edges, id) == EdgeList(before, id) + if id ==
      next.from then [Normal(TargetOf(next.to))] else []
    ensures EdgesAdded(edges, entry, more)
  {
    assert more[..|added|] == added;
    forall id ensures EdgeList(edges, id) == EdgesOut(entry, more, id) {
      assert EdgeList(before, id) == EdgesOut(entry, added, id);
      if id == next.from {
        assert Succ(more, id) == Succ(added, id) + [next.to];
        assert Normals(Succ(more, id)) == Normals(Succ(added, id)) + [Normal(TargetOf(next.to))];
      }
    }
  }

  /** `compile` and `build`. The behaviour of the nodes is arbitrary. */
  method Compile(spec: GraphSpec, behaviour: string -> ((Data, nat) -> Trial), retry: map<string, RetryPolicy>)
    returns (r: Result<Graph, CompileError>)
    ensures r.Ok? <==> AllExecutable(spec) && EdgesBuildable(spec)
    ensures r.Ok? ==> r.value.retry == retry && r.value.maxIterations == Iterations(spec)
    ensures r.Ok? ==> Compiled(spec, r.value) && forall id :: id in r.value.nodes ==> r.value.nodes[id] == behaviour(id)
    ensures WellFormed(spec) ==> (r.Ok? <==> AllExecutable(spec))
  {
    hide Succ, CompiledEdges, Buildable, KnownName;
    WellFormedBuilds(spec);
    hide WellFormed;
    var nodes: map<string, (Data, nat) -> Trial> := map[];
    for i := 0 to |spec.nodes|
      invariant forall j :: 0 <= j < i ==> spec.nodes[j].nodeType !in {External, Tool, NodeType.Loop}
      invariant forall id :: id in nodes <==> id in Ids(spec.nodes)[..i]
      invariant forall id :: id in nodes ==> nodes[id] == behaviour(id)
    {
      var node := spec.nodes[i];
      if !Executable(node.nodeType) {
        return Err(NotExecutable(node.id));
      }
      assert Ids(spec.nodes)[..i + 1] == Ids(spec.nodes)[..i] + [node.id];
      nodes := nodes[node.id := behaviour(node.id)];
    }
    assert Ids(spec.nodes)[..|spec.nodes|] == Ids(spec.nodes);
    var edges := CompileEdges(spec);
    BuildableIsKnown(spec, spec.entry);
    if !Buildable(spec, spec.entry) {
      return Err(NodeMissing(START, spec.entry));
    }
    for i := 0 to |spec.edges|
      invariant forall j :: 0 <= j < i ==> KnownName(spec, TargetOf(spec.edges[j].to))
    {
      BuildableIsKnown(spec, TargetOf(spec.edges[i].to));
      if !Buildable(spec, TargetOf(spec.edges[i].to)) {
        return Err(NodeMissing(spec.edges[i].from, TargetOf(spec.edges[i].to)));
      }
    }
    r := Ok(Graph(nodes, edges, retry, Iterations(spec), false, {}, {}));
  }

  lemma WellFormedBuilds(spec: GraphSpec)
    ensures WellFormed(spec) ==> EdgesBuildable(spec)
  {
    forall i | WellFormed(spec) && 0 <= i < |spec.edges| ensures Buildable(spec, TargetOf(spec.edges[i].to)) {
      assert EndpointsOk(spec.nodes, spec.edges[i]);
    }
  }

  // ---- Graphs with given nodes ------------------------------------------------------------

  /** What `Compile` builds for nodes without a retry policy. */
  function GraphOf(spec: GraphSpec, behaviour: string -> ((Data, nat) -> Trial)): Graph {
    Graph(map id | id in Ids(spec.nodes) :: behaviour(id),
          map id | id in Ids(spec.nodes) + [START] :: CompiledEdges(spec, id),
          map[], Iterations(spec), false, {}, {})
  }

  lemma GraphOfCompiled(spec: GraphSpec, behaviour: string -> ((Data, nat) -> Trial))
    requires WellFormed(spec)
    ensures Compiled(spec, GraphOf(spec, behaviour))
  {
    hide WellFormed, Succ;
    var edges := GraphOf(spec, behaviour).edges;
    forall id ensures EdgeList(edges, id) == CompiledEdges(spec, id) {
      var succ := Succ(spec.edges, id);
      if id !in Ids(spec.nodes) && id != START && succ != [] {
        SuccMember(spec.edges, id, succ[0]);
        EdgeTarget(spec, EdgeSpec(id, succ[0]));
      }
    }
  }
}

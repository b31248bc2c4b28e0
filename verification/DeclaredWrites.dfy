/** The keys a node declares to write, read off its configuration (agent-graph-mcp/src/spec.rs). */
module DeclaredWrites {
  import opened Values
  import opened Closure
  import opened GraphSpecs

  /** The object has that text under that name. */
  predicate Holds(value: Json, name: string, text: string) {
    value.Obj? && name in value.fields && value.fields[name] == Str(text)
  }

  /** The operations of a transform node whose path is that key. */
  function PathsTo(node: NodeSpec, key: string): set<nat> {
    if node.config.Obj? && "operations" in node.config.fields && node.config.fields["operations"].Arr?
    then PathsIn(node.config.fields["operations"].items, key)
    else {}
  }

  function PathsIn(operations: seq<Json>, key: string): set<nat> {
    set i: nat | i < |operations| && Holds(operations[i], "path", key)
  }

  /** Models, approvals and subgraphs write a non-empty output key, transforms the paths of their operations,
    * joins their output; other nodes write nothing. */
  ghost predicate DeclaresKey(node: NodeSpec, key: string) {
    || (node.nodeType in {Llm, HumanApproval, Subgraph} && key != "" && Holds(node.config, "output_key", key))
    || (node.nodeType == StateTransform && PathsTo(node, key) != {})
    || (node.nodeType == NodeType.Join && Holds(node.config, "output", key))
  }

  /** Only a transform node can declare a key more than once. */
  ghost predicate DeclaresTwice(node: NodeSpec, key: string) {
    node.nodeType == StateTransform && |PathsTo(node, key)| >= 2
  }

  lemma {:induction false} PathsCounted(operations: seq<Json>, key: string)
    ensures Occurrences(OperationPaths(operations), key) == |PathsIn(operations, key)|
    decreases |operations|
  {
    if operations == [] {
      assert PathsIn(operations, key) == {};
    } else {
      PathsCounted(operations[..|operations| - 1], key);
      LastPath(operations, key);
      LastOccurrence(operations, key);
    }
  }

  lemma LastPath(operations: seq<Json>, key: string)
    requires operations != []
    ensures var n := |operations| - 1;
      |PathsIn(operations, key)| ==
        |PathsIn(operations[..n], key)| + if Holds(operations[n], "path", key) then 1 else 0
  {
    var n := |operations| - 1;
    hide Holds;
    var before, all := PathsIn(operations[..n], key), PathsIn(operations, key);
    assert all == before + if Holds(operations[n], "path", key) then {n} else {};
  }

  lemma LastOccurrence(operations: seq<Json>, key: string)
    requires operations != []
    ensures var n := |operations| - 1;
      Occurrences(OperationPaths(operations), key) ==
        Occurrences(OperationPaths(operations[..n]), key) + if Holds(operations[n], "path", key) then 1 else 0
  {
    var n := |operations| - 1;
    var paths := OperationPaths(operations[..n]);
    var path := StringField(operations[n], "path");
    assert Holds(operations[n], "path", key) <==> path == Some(key);
    if path.Some? {
      assert OperationPaths(operations) == paths + [path.value];
      assert (paths + [path.value])[..|paths|] == paths;
    } else {
      assert OperationPaths(operations) == paths;
    }
  }

  /** How often a node counts as a writer of a key. */
  lemma WriteKeysExact(node: NodeSpec, key: string)
    ensures Occurrences(WriteKeys(node), key) >= 1 <==> DeclaresKey(node, key)
    ensures Occurrences(WriteKeys(node), key) >= 2 <==> DeclaresTwice(node, key)
    ensures node.nodeType == StateTransform ==> Occurrences(WriteKeys(node), key) == |PathsTo(node, key)|
  {
    OneKey(key);
    if node.nodeType == StateTransform {
      if operations :| Field(node.config, "operations") == Some(Arr(operations)) {
        PathsCounted(operations, key);
      }
    }
  }

  lemma OneKey(key: string)
    ensures Occurrences([], key) == 0
    ensures forall only :: Occurrences([only], key) == if only == key then 1 else 0
  {
    forall only: string ensures Occurrences([only], key) == if only == key then 1 else 0 {
      assert [only][..0] == [];
    }
  }

  /** Two entries of the list of writers, said with the configurations. */
  lemma PairDeclared(nodes: seq<NodeSpec>, key: string, a: nat, b: nat)
    ensures WritePair(nodes, key, a, b) <==>
      && a <= b < |nodes| && DeclaresKey(nodes[a], key) && DeclaresKey(nodes[b], key)
      && (a == b ==> DeclaresTwice(nodes[a], key))
  {
    hide WriteKeys, Occurrences, DeclaresKey, DeclaresTwice;
    if a <= b < |nodes| {
      WriteKeysExact(nodes[a], key);
      WriteKeysExact(nodes[b], key);
    }
  }

  // ---- Two nodes in parallel ------------------------------------------------------------------

  /** An entry that leads to two nodes. */
  function Fork(left: NodeSpec, right: NodeSpec): GraphSpec {
    GraphSpec("g", "e", [Idle("e"), left, right], [EdgeSpec("e", left.id), EdgeSpec("e", right.id)], None, None, map[])
  }

  predicate Named(left: NodeSpec, right: NodeSpec) {
    left.id == "l" && right.id == "r"
  }

  lemma ForkWellFormed(left: NodeSpec, right: NodeSpec)
    requires Named(left, right)
    ensures WellFormed(Fork(left, right))
  {
    var spec := Fork(left, right);
    var ids := Ids(spec.nodes);
    assert ids[0] == "e" && ids[1] == "l" && ids[2] == "r";
    assert EndpointsOk(spec.nodes, spec.edges[0]) && EndpointsOk(spec.nodes, spec.edges[1]);
  }

  lemma ForkEdges(left: NodeSpec, right: NodeSpec)
    requires Named(left, right)
    ensures Adj(Fork(left, right)) == {(0, 1), (0, 2)}
  {
    var nodes, edges := Fork(left, right).nodes, Fork(left, right).edges;
    var ids := Ids(nodes);
    assert ids[0] == "e" && ids[1] == "l" && ids[2] == "r";
    assert Inner(nodes, edges[0]) && EdgePair(nodes, edges[0]) == (0, 1);
    assert Inner(nodes, edges[1]) && EdgePair(nodes, edges[1]) == (0, 2);
    assert edges[0] == EdgeSpec("e", "l") && edges[1] == EdgeSpec("e", "r");
  }

  lemma ForkReaches(i: nat, j: nat)
    ensures Reaches({(0, 1), (0, 2)}, i, j) <==> (i, j) in {(0, 1), (0, 2)}
  {
    var adj: set<(nat, nat)> := {(0, 1), (0, 2)};
    if Reaches(adj, i, j) {
      var path :| IsPath(adj, path) && Joins(path, i, j);
      assert (path[0], path[0 + 1]) in adj;
      forall k | 0 <= k < |path| - 1 ensures path[k] == 0 {
        assert (path[k], path[k + 1]) in adj;
      }
      forall k | 0 < k < |path| ensures path[k] != 0 {
        assert (path[k - 1], path[k - 1 + 1]) in adj;
      }
      assert path[|path| - 2] == 0;
    }
    if (i, j) in adj {
      assert IsPath(adj, [i, j]) && Joins([i, j], i, j);
    }
  }

  /** Two parallel nodes conflict exactly if both declare a key, or one declares a key twice. */
  lemma ForkConflicts(left: NodeSpec, right: NodeSpec)
    requires Named(left, right)
    ensures HasConflict(Fork(left, right)) <==>
      exists key :: (DeclaresKey(left, key) && DeclaresKey(right, key)) || DeclaresTwice(left, key) || DeclaresTwice(right, key)
  {
    var spec := Fork(left, right);
    hide WriteKeys, Occurrences, Adj, Reaches, DeclaresKey, DeclaresTwice;
    forall key, a: nat, b: nat
      ensures ConflictOn(spec, key, a, b) <==>
        || ((a, b) == (1, 2) && DeclaresKey(left, key) && DeclaresKey(right, key))
        || ((a, b) == (1, 1) && DeclaresTwice(left, key))
        || ((a, b) == (2, 2) && DeclaresTwice(right, key))
    {
      ForkConflict(left, right, key, a, b);
    }
    if key :| (DeclaresKey(left, key) && DeclaresKey(right, key)) || DeclaresTwice(left, key) || DeclaresTwice(right, key) {
      assert ConflictOn(spec, key, 1, 2) || ConflictOn(spec, key, 1, 1) || ConflictOn(spec, key, 2, 2);
    }
  }

  lemma ForkConflict(left: NodeSpec, right: NodeSpec, key: string, a: nat, b: nat)
    requires Named(left, right)
    ensures ConflictOn(Fork(left, right), key, a, b) <==>
      || ((a, b) == (1, 2) && DeclaresKey(left, key) && DeclaresKey(right, key))
      || ((a, b) == (1, 1) && DeclaresTwice(left, key))
      || ((a, b) == (2, 2) && DeclaresTwice(right, key))
  {
    var spec := Fork(left, right);
    PairDeclared(spec.nodes, key, a, b);
    assert !DeclaresKey(Idle("e"), key);
    TwiceIsOnce(left, key);
    TwiceIsOnce(right, key);
    hide WritePair, WriteKeys, DeclaresKey, DeclaresTwice, Adj, Reaches;
    ForkEdges(left, right);
    forall i: nat, j: nat ensures Reaches(Adj(spec), i, j) <==> (i, j) in {(0, 1), (0, 2)} {
      ForkReaches(i, j);
    }
    assert IsCommonAncestor(Adj(spec), 0, 1, 2) && IsCommonAncestor(Adj(spec), 0, 1, 1) && IsCommonAncestor(Adj(spec), 0, 2, 2);
  }

  lemma TwiceIsOnce(node: NodeSpec, key: string)
    ensures DeclaresTwice(node, key) ==> DeclaresKey(node, key)
  {
    WriteKeysExact(node, key);
  }

  /** Nodes of every kind that writes, each writing `k`. */
  function KWriter(id: string, kind: NodeType): NodeSpec {
    NodeSpec(id, kind, false,
             match kind
             case StateTransform => Obj(map["operations" := Arr([SetOp("k")])])
             case Join => Obj(map["inputs" := Arr([]), "output" := Str("k")])
             case _ => Obj(map["output_key" := Str("k")]))
  }

  predicate Writing(kind: NodeType) {
    kind in {Llm, HumanApproval, Subgraph, StateTransform, NodeType.Join}
  }

  /** Two such nodes in parallel are rejected exactly if both are of kinds that write. */
  lemma KindsThatConflict(left: NodeType, right: NodeType)
    ensures HasConflict(Fork(KWriter("l", left), KWriter("r", right))) <==> Writing(left) && Writing(right)
  {
    var l, r := KWriter("l", left), KWriter("r", right);
    forall key ensures !DeclaresTwice(l, key) && (DeclaresKey(l, key) <==> key == "k" && Writing(left)) {
      KeyOfKind(left, "l", key);
    }
    forall key ensures !DeclaresTwice(r, key) && (DeclaresKey(r, key) <==> key == "k" && Writing(right)) {
      KeyOfKind(right, "r", key);
    }
    hide DeclaresKey, DeclaresTwice, Writing, HasConflict;
    ForkConflicts(l, r);
    assert DeclaresKey(l, "k") && DeclaresKey(r, "k") <==> Writing(left) && Writing(right);
  }

  lemma KeyOfKind(kind: NodeType, id: string, key: string)
    ensures var node := KWriter(id, kind);
      !DeclaresTwice(node, key) && (DeclaresKey(node, key) <==> key == "k" && Writing(kind))
  {
    if kind == StateTransform {
      assert PathsTo(KWriter(id, kind), key) == if key == "k" then {0} else {};
    }
  }
}

/** Declarative graph specifications and their validation (agent-graph-mcp/src/spec.rs). */
module GraphSpecs {
  import opened Values
  import opened Reducers
  import opened Closure

  const MAX_NODES := 128
  const MAX_EDGES := 512
  const MAX_ITERATIONS := 64

  datatype NodeType =
    | Llm | Router | Passthrough | StateTransform | Join | Parallel | Subgraph | HumanApproval
    | External | Tool | Loop

  datatype NodeSpec = NodeSpec(id: string, nodeType: NodeType, evidenceRequired: bool, config: Json)

  /** A passthrough node without a configuration. */
  function Idle(id: string): NodeSpec {
    NodeSpec(id, Passthrough, false, Null)
  }

  datatype EdgeSpec = EdgeSpec(from: string, to: string)

  datatype GraphSpec = GraphSpec(
    name: string, entry: string, nodes: seq<NodeSpec>, edges: seq<EdgeSpec>,
    maxIterations: Option<nat>, maxParallelism: Option<nat>, reducers: map<string, Reducer>)

  function Ids(nodes: seq<NodeSpec>): (r: seq<string>)
    ensures |r| == |nodes| && forall i :: 0 <= i < |r| ==> r[i] == nodes[i].id
  {
    seq(|nodes|, i requires 0 <= i < |nodes| => nodes[i].id)
  }

  function Iterations(spec: GraphSpec): nat {
    if spec.maxIterations.Some? then spec.maxIterations.value else MAX_ITERATIONS
  }

  function Parallelism(spec: GraphSpec): nat {
    if spec.maxParallelism.Some? then spec.maxParallelism.value else 8
  }

  predicate ValidIdChar(c: char) {
    'a' <= c <= 'z' || 'A' <= c <= 'Z' || '0' <= c <= '9' || c in ['_', '.', '-']
  }

  predicate ValidId(id: string) {
    0 < |id| <= 64 && forall i :: 0 <= i < |id| ==> ValidIdChar(id[i])
  }

  predicate EndpointsOk(nodes: seq<NodeSpec>, e: EdgeSpec) {
    e.from in Ids(nodes) && (e.to == "END" || e.to in Ids(nodes))
  }

  /** The structural part of `validate`. */
  predicate WellFormed(spec: GraphSpec) {
    && ValidId(spec.name)
    && 1 <= |spec.nodes| <= MAX_NODES
    && |spec.edges| <= MAX_EDGES
    && 1 <= Iterations(spec) <= MAX_ITERATIONS
    && 1 <= Parallelism(spec) <= 32
    && (forall i, j :: 0 <= i < j < |spec.nodes| ==> spec.nodes[i].id != spec.nodes[j].id)
    && spec.entry in Ids(spec.nodes)
    && (forall i :: 0 <= i < |spec.nodes| ==> ValidId(spec.nodes[i].id))
    && (forall i :: 0 <= i < |spec.edges| ==> EndpointsOk(spec.nodes, spec.edges[i]))
  }

  // ---- Declared writes ----------------------------------------------------------------

  function Field(config: Json, key: string): Option<Json> {
    if config.Obj? && key in config.fields then Some(config.fields[key]) else None
  }

  function StringField(config: Json, key: string): Option<string> {
    match Field(config, key)
    case Some(Str(s)) => Some(s)
    case _ => None
  }

  /** The paths of a list of transform operations; entries without one are skipped. */
  function OperationPaths(operations: seq<Json>): seq<string> {
    if operations == [] then []
    else
      OperationPaths(operations[..|operations| - 1]) +
        match StringField(operations[|operations| - 1], "path")
        case Some(path) => [path]
        case None => []
  }

  /** The keys a node declares to write, with repetitions. */
  function WriteKeys(node: NodeSpec): seq<string> {
    match node.nodeType
    case Llm => OutputKey(node)
    case HumanApproval => OutputKey(node)
    case Subgraph => OutputKey(node)
    case StateTransform =>
      (match Field(node.config, "operations")
       case Some(Arr(operations)) => OperationPaths(operations)
       case _ => [])
    case Join =>
      (match StringField(node.config, "output")
       case Some(key) => [key]
       case None => [])
    case _ => []
  }

  function OutputKey(node: NodeSpec): seq<string> {
    match StringField(node.config, "output_key")
    case Some(key) => if key == "" then [] else [key]
    case None => []
  }

  function Occurrences(keys: seq<string>, key: string): nat {
    if keys == [] then 0
    else Occurrences(keys[..|keys| - 1], key) + if keys[|keys| - 1] == key then 1 else 0
  }

  function Repeat(index: nat, count: nat): (r: seq<nat>)
    ensures |r| == count && forall i :: 0 <= i < count ==> r[i] == index
  {
    seq(count, i => index)
  }

  /** The writers of a key in node order; a node is listed once per declared write. */
  function Writers(nodes: seq<NodeSpec>, key: string): (r: seq<nat>)
    ensures forall i :: 0 <= i < |r| ==> r[i] < |nodes|
  {
    if nodes == [] then []
    else
      var n := |nodes| - 1;
      Writers(nodes[..n], key) + Repeat(n, Occurrences(WriteKeys(nodes[n]), key))
  }

  /** Two different nodes that write the key, or one node that writes it twice. */
  predicate WritePair(nodes: seq<NodeSpec>, key: string, a: nat, b: nat) {
    && a <= b < |nodes|
    && Occurrences(WriteKeys(nodes[a]), key) >= (if a == b then 2 else 1)
    && Occurrences(WriteKeys(nodes[b]), key) >= 1
  }

  lemma {:induction false} WritersSorted(nodes: seq<NodeSpec>, key: string, left: nat, right: nat)
    requires left < right < |Writers(nodes, key)|
    ensures WritePair(nodes, key, Writers(nodes, key)[left], Writers(nodes, key)[right])
    decreases |nodes|
  {
    var n := |nodes| - 1;
    var before := Writers(nodes[..n], key);
    if right < |before| {
      WritersSorted(nodes[..n], key, left, right);
    } else if left < |before| {
      WriterWrites(nodes[..n], key, left);
    }
  }

  lemma {:induction false} WriterWrites(nodes: seq<NodeSpec>, key: string, i: nat)
    requires i < |Writers(nodes, key)|
    ensures Occurrences(WriteKeys(nodes[Writers(nodes, key)[i]]), key) >= 1
    decreases |nodes|
  {
    var n := |nodes| - 1;
    if i < |Writers(nodes[..n], key)| {
      WriterWrites(nodes[..n], key, i);
    }
  }

  lemma {:induction false} WritersPrefix(nodes: seq<NodeSpec>, key: string, n: nat)
    requires n <= |nodes|
    ensures Writers(nodes[..n], key) <= Writers(nodes, key)
    decreases |nodes|
  {
    if n == |nodes| {
      assert nodes[..n] == nodes;
    } else {
      WritersPrefix(nodes[..|nodes| - 1], key, n);
      assert nodes[..|nodes| - 1][..n] == nodes[..n];
    }
  }

  lemma {:induction false} WritersShorter(nodes: seq<NodeSpec>, key: string, m: nat, n: nat)
    requires m <= n <= |nodes|
    ensures |Writers(nodes[..m], key)| <= |Writers(nodes[..n], key)|
  {
    assert nodes[..n][..m] == nodes[..m];
    WritersPrefix(nodes[..n], key, m);
  }

  /** The entries of one node follow those of the nodes before it. */
  lemma {:induction false} WriterEntries(nodes: seq<NodeSpec>, key: string, a: nat, m: nat)
    requires a < |nodes| && m < Occurrences(WriteKeys(nodes[a]), key)
    ensures var i := |Writers(nodes[..a], key)| + m;
      && i < |Writers(nodes[..a + 1], key)| <= |Writers(nodes, key)|
      && Writers(nodes, key)[i] == a
  {
    assert nodes[..a + 1][..a] == nodes[..a];
    WritersPrefix(nodes, key, a + 1);
  }

  /** Every pair of writers stands at two positions of the list. */
  lemma {:induction false} PairListed(nodes: seq<NodeSpec>, key: string, a: nat, b: nat) returns (left: nat, right: nat)
    requires WritePair(nodes, key, a, b)
    ensures left < right < |Writers(nodes, key)| && Writers(nodes, key)[left] == a && Writers(nodes, key)[right] == b
  {
    hide Writers, WriteKeys;
    WriterEntries(nodes, key, a, 0);
    left := |Writers(nodes[..a], key)|;
    if a < b {
      WriterEntries(nodes, key, b, 0);
      WritersShorter(nodes, key, a + 1, b);
      right := |Writers(nodes[..b], key)|;
    } else {
      WriterEntries(nodes, key, a, 1);
      right := left + 1;
    }
  }

  // ---- Conflicts ------------------------------------------------------------------------

  function Position(ids: seq<string>, id: string): (i: nat)
    requires id in ids
    ensures i < |ids| && ids[i] == id && forall j :: 0 <= j < i ==> ids[j] != id
  {
    if ids[0] == id then 0 else 1 + Position(ids[1..], id)
  }

  predicate Inner(nodes: seq<NodeSpec>, e: EdgeSpec) {
    e.to != "END" && e.from in Ids(nodes) && e.to in Ids(nodes)
  }

  function EdgePair(nodes: seq<NodeSpec>, e: EdgeSpec): (nat, nat)
    requires Inner(nodes, e)
  {
    (Position(Ids(nodes), e.from), Position(Ids(nodes), e.to))
  }

  /** The edges between nodes, as pairs of positions. */
  ghost function Adjacency(nodes: seq<NodeSpec>, edges: seq<EdgeSpec>): (adj: set<(nat, nat)>)
    ensures forall e :: e in adj ==> e.0 < |nodes| && e.1 < |nodes|
  {
    set i | 0 <= i < |edges| && Inner(nodes, edges[i]) :: EdgePair(nodes, edges[i])
  }

  ghost function Adj(spec: GraphSpec): set<(nat, nat)> {
    Adjacency(spec.nodes, spec.edges)
  }

  ghost predicate Unordered(adj: set<(nat, nat)>, a: nat, b: nat) {
    !Reaches(adj, a, b) && !Reaches(adj, b, a)
  }

  ghost predicate IsCommonAncestor(adj: set<(nat, nat)>, c: nat, a: nat, b: nat) {
    c != a && c != b && Reaches(adj, c, a) && Reaches(adj, c, b)
  }

  ghost predicate Clash(spec: GraphSpec, a: nat, b: nat) {
    && Unordered(Adj(spec), a, b)
    && exists c: nat :: c < |spec.nodes| && IsCommonAncestor(Adj(spec), c, a, b)
  }

  /** A pair of writers of a key without reducer that may run in parallel. */
  ghost predicate ConflictOn(spec: GraphSpec, key: string, a: nat, b: nat) {
    key !in spec.reducers && WritePair(spec.nodes, key, a, b) && Clash(spec, a, b)
  }

  ghost predicate HasConflict(spec: GraphSpec) {
    exists key, a, b :: ConflictOn(spec, key, a, b)
  }

  /** Writers of which one follows the other do not conflict, in whatever order they are declared. */
  lemma OrderedWritersPass(spec: GraphSpec, key: string, a: nat, b: nat)
    requires Reaches(Adj(spec), a, b)
    ensures !ConflictOn(spec, key, a, b) && !ConflictOn(spec, key, b, a)
  {
  }

  datatype Verdict = Accepted | Conflict(key: string, left: nat, right: nat)

  method FindPosition(nodes: seq<NodeSpec>, id: string) returns (r: Option<nat>)
    ensures r.Some? <==> id in Ids(nodes)
    ensures r.Some? ==> r.value == Position(Ids(nodes), id)
  {
    for i := 0 to |nodes|
      invariant forall j :: 0 <= j < i ==> nodes[j].id != id
    {
      if nodes[i].id == id {
        assert Ids(nodes)[i] == id;
        return Some(i);
      }
    }
    r := None;
  }

  /** The matrix of direct edges, closed in place. */
  method ReachMatrix(spec: GraphSpec) returns (reach: array2<bool>)
    ensures fresh(reach) && IsClosure(reach, spec)
  {
    reach := new bool[|spec.nodes|, |spec.nodes|]((i, j) => false);
    for i := 0 to |spec.edges|
      invariant forall a: nat, b: nat :: a < |spec.nodes| && b < |spec.nodes| ==>
        (reach[a, b] <==> (a, b) in Adjacency(spec.nodes, spec.edges[..i]))
    {
      AdjacencyNext(spec.nodes, spec.edges, i);
      if spec.edges[i].to != "END" {
        var from := FindPosition(spec.nodes, spec.edges[i].from);
        var to := FindPosition(spec.nodes, spec.edges[i].to);
        if from.Some? && to.Some? {
          reach[from.value, to.value] := true;
        }
      }
    }
    assert spec.edges[..|spec.edges|] == spec.edges;
    Warshall(reach, Adj(spec));
  }

  lemma AdjacencyNext(nodes: seq<NodeSpec>, edges: seq<EdgeSpec>, i: nat)
    requires i < |edges|
    ensures Adjacency(nodes, edges[..i + 1]) ==
      Adjacency(nodes, edges[..i]) + if Inner(nodes, edges[i]) then {EdgePair(nodes, edges[i])} else {}
  {
    var less, more := edges[..i], edges[..i + 1];
    forall p | p in Adjacency(nodes, more)
      ensures p in Adjacency(nodes, less) || (Inner(nodes, edges[i]) && p == EdgePair(nodes, edges[i]))
    {
      var j :| 0 <= j < |more| && Inner(nodes, more[j]) && EdgePair(nodes, more[j]) == p;
      if j < i {
        assert less[j] == more[j];
      }
    }
    forall p | p in Adjacency(nodes, less) ensures p in Adjacency(nodes, more) {
      var j :| 0 <= j < |less| && Inner(nodes, less[j]) && EdgePair(nodes, less[j]) == p;
      assert more[j] == less[j];
    }
    if Inner(nodes, edges[i]) {
      assert more[i] == edges[i];
    }
  }

  // ---- Collecting the writers -----------------------------------------------------------

  function Listed(writers: map<string, seq<nat>>, key: string): seq<nat> {
    if key in writers then writers[key] else []
  }

  ghost predicate WritersSoFar(writers: map<string, seq<nat>>, nodes: seq<NodeSpec>) {
    forall key :: Listed(writers, key) == Writers(nodes, key)
  }

  ghost predicate Pushed(writers: map<string, seq<nat>>, before: map<string, seq<nat>>, index: nat,
                         keys: seq<string>, key: string) {
    Listed(writers, key) == Listed(before, key) + Repeat(index, Occurrences(keys, key))
  }

  method PushWriter(before: map<string, seq<nat>>, index: nat, keys: seq<string>)
    returns (writers: map<string, seq<nat>>)
    ensures forall key :: Pushed(writers, before, index, keys, key)
  {
    writers := before;
    PushNone(before, index);
    for i := 0 to |keys|
      invariant forall key :: Pushed(writers, before, index, keys[..i], key)
    {
      ghost var last := writers;
      var key := keys[i];
      assert keys[..i + 1] == keys[..i] + [key];
      writers := writers[key := (if key in writers then writers[key] else []) + [index]];
      PushOne(last, writers, before, index, keys[..i], keys[i], keys[..i + 1]);
    }
    assert keys[..|keys|] == keys;
  }

  lemma PushNone(before: map<string, seq<nat>>, index: nat)
    ensures forall key :: Pushed(before, before, index, [], key)
  {
    forall key ensures Pushed(before, before, index, [], key) {
      assert Listed(before, key) + Repeat(index, 0) == Listed(before, key);
    }
  }

  lemma PushOne(last: map<string, seq<nat>>, writers: map<string, seq<nat>>, before: map<string, seq<nat>>,
                index: nat, keys: seq<string>, next: string, more: seq<string>)
    requires more == keys + [next] && writers == last[next := Listed(last, next) + [index]]
    requires forall key :: Pushed(last, before, index, keys, key)
    ensures forall key :: Pushed(writers, before, index, more, key)
  {
    assert more[..|keys|] == keys;
    forall key ensures Pushed(writers, before, index, more, key) {
      assert Pushed(last, before, index, keys, key);
      var c := Occurrences(keys, key);
      assert Occurrences(more, key) == c + if key == next then 1 else 0;
      hide Occurrences;
      assert Repeat(index, c + 1) == Repeat(index, c) + [index];
    }
  }

  method CollectWriters(nodes: seq<NodeSpec>) returns (writers: map<string, seq<nat>>)
    ensures WritersSoFar(writers, nodes)
  {
    writers := map[];
    for i := 0 to |nodes|
      invariant WritersSoFar(writers, nodes[..i])
    {
      ghost var before := writers;
      writers := PushWriter(writers, i, WriteKeys(nodes[i]));
      WritersNext(before, writers, nodes, i);
    }
    assert nodes[..|nodes|] == nodes;
  }

  lemma WritersNext(before: map<string, seq<nat>>, writers: map<string, seq<nat>>, nodes: seq<NodeSpec>, i: nat)
    requires i < |nodes| && WritersSoFar(before, nodes[..i])
    requires forall key :: Pushed(writers, before, i, WriteKeys(nodes[i]), key)
    ensures WritersSoFar(writers, nodes[..i + 1])
  {
    assert nodes[..i + 1][..i] == nodes[..i];
    forall key ensures Listed(writers, key) == Writers(nodes[..i + 1], key) {
      assert Pushed(writers, before, i, WriteKeys(nodes[i]), key);
      assert Listed(before, key) == Writers(nodes[..i], key);
    }
  }

  // ---- The check --------------------------------------------------------------------------

  method SharedAncestor(reach: array2<bool>, spec: GraphSpec, a: nat, b: nat) returns (shared: bool)
    requires IsClosure(reach, spec) && a < |spec.nodes| && b < |spec.nodes|
    ensures shared <==> exists c: nat :: c < |spec.nodes| && IsCommonAncestor(Adj(spec), c, a, b)
  {
    for c := 0 to |spec.nodes|
      invariant forall d: nat :: d < c ==> !IsCommonAncestor(Adj(spec), d, a, b)
    {
      if c != a && c != b && reach[c, a] && reach[c, b] {
        assert IsCommonAncestor(Adj(spec), c, a, b);
        return true;
      }
    }
    shared := false;
  }

  ghost predicate PairIn(nodes: seq<nat>, a: nat, b: nat) {
    exists left, right :: 0 <= left < right < |nodes| && nodes[left] == a && nodes[right] == b
  }

  ghost predicate IsClosure(reach: array2<bool>, spec: GraphSpec)
    reads reach
  {
    && reach.Length0 == reach.Length1 == |spec.nodes|
    && forall i: nat, j: nat :: i < |spec.nodes| && j < |spec.nodes| ==> (reach[i, j] <==> Reaches(Adj(spec), i, j))
  }

  /** All pairs of one key's writers. */
  method CheckKey(reach: array2<bool>, spec: GraphSpec, nodes: seq<nat>) returns (clash: Option<(nat, nat)>)
    requires IsClosure(reach, spec)
    requires forall i :: 0 <= i < |nodes| ==> nodes[i] < |spec.nodes|
    ensures clash.None? ==> forall left, right :: 0 <= left < right < |nodes| ==> !Clash(spec, nodes[left], nodes[right])
    ensures clash.Some? ==> PairIn(nodes, clash.value.0, clash.value.1) && Clash(spec, clash.value.0, clash.value.1)
  {
    for left := 0 to |nodes|
      invariant forall l, r :: 0 <= l < left && l < r < |nodes| ==> !Clash(spec, nodes[l], nodes[r])
    {
      for right := left + 1 to |nodes|
        invariant forall r :: left < r < right ==> !Clash(spec, nodes[left], nodes[r])
      {
        var a, b := nodes[left], nodes[right];
        if !(reach[a, b] || reach[b, a]) {
          var shared := SharedAncestor(reach, spec, a, b);
          if shared {
            return Some((a, b));
          }
        }
      }
    }
    clash := None;
  }

  /** `validate_state_write_conflicts`, the keys being visited in any order. The specification is
    * rejected exactly if some pair of writers of a key without reducer is unordered and has a
    * common ancestor other than the two. */
  method ValidateStateWriteConflicts(spec: GraphSpec) returns (r: Verdict)
    ensures r.Accepted? <==> !HasConflict(spec)
    ensures r.Conflict? ==> ConflictOn(spec, r.key, r.left, r.right)
  {
    var reach := ReachMatrix(spec);
    var writers := CollectWriters(spec.nodes);
    var todo := writers.Keys;
    while todo != {}
      invariant todo <= writers.Keys && IsClosure(reach, spec)
      invariant forall key, a, b :: key in writers && key !in todo ==> !ConflictOn(spec, key, a, b)
    {
      var key :| key in todo;
      assert Listed(writers, key) == Writers(spec.nodes, key);
      if key !in spec.reducers {
        var clash := CheckKey(reach, spec, writers[key]);
        if clash.Some? {
          ClashConflicts(spec, key, clash.value.0, clash.value.1);
          return Conflict(key, clash.value.0, clash.value.1);
        }
        NoClashNoConflict(spec, key);
      }
      todo := todo - {key};
    }
    forall key, a, b ensures !ConflictOn(spec, key, a, b) {
      if WritePair(spec.nodes, key, a, b) {
        var left, right := PairListed(spec.nodes, key, a, b);
        assert Listed(writers, key) == Writers(spec.nodes, key);
      }
    }
    r := Accepted;
  }

  lemma ClashConflicts(spec: GraphSpec, key: string, a: nat, b: nat)
    requires key !in spec.reducers && Clash(spec, a, b)
    requires PairIn(Writers(spec.nodes, key), a, b)
    ensures ConflictOn(spec, key, a, b)
  {
    var nodes := Writers(spec.nodes, key);
    var left, right :| 0 <= left < right < |nodes| && nodes[left] == a && nodes[right] == b;
    WritersSorted(spec.nodes, key, left, right);
  }

  lemma NoClashNoConflict(spec: GraphSpec, key: string)
    requires var nodes := Writers(spec.nodes, key);
      forall left, right :: 0 <= left < right < |nodes| ==> !Clash(spec, nodes[left], nodes[right])
    ensures forall a, b :: !ConflictOn(spec, key, a, b)
  {
    forall a, b ensures !ConflictOn(spec, key, a, b) {
      if WritePair(spec.nodes, key, a, b) {
        var left, right := PairListed(spec.nodes, key, a, b);
      }
    }
  }

  /** The numbers `validate` accepts; a number that is not given is 64 iterations or 8 parallel branches. */
  predicate CountsOk(spec: GraphSpec) {
    && 1 <= |spec.nodes| <= 128 && |spec.edges| <= 512
    && (spec.maxIterations.Some? ==> 1 <= spec.maxIterations.value <= 64)
    && (spec.maxParallelism.Some? ==> 1 <= spec.maxParallelism.value <= 32)
  }

  /** A valid name has 1 to 64 letters, digits, underscores, dots or hyphens, told by their ASCII codes. */
  lemma ValidNames(id: string)
    ensures ValidId(id) <==>
      1 <= |id| <= 64 && forall i :: 0 <= i < |id| ==>
        var code := id[i] as int;
        48 <= code < 58 || 65 <= code < 91 || 97 <= code < 123 || code in {95, 46, 45}
  {
  }

  datatype Rejection = BadName | BadCounts | DuplicateId | UnknownEntry | BadNodeId | BadEdge | WriteConflict

  /** The checks of `validate` that concern the graph's shape, in order. */
  method Validate(spec: GraphSpec) returns (r: Result<(), Rejection>)
    ensures r.Ok? <==> WellFormed(spec) && !HasConflict(spec)
    ensures r == Err(WriteConflict) <==> WellFormed(spec) && HasConflict(spec)
    ensures r == Err(BadName) <==> !ValidId(spec.name)
    ensures r == Err(BadCounts) <==> ValidId(spec.name) && !CountsOk(spec)
  {
    if !ValidId(spec.name) {
      return Err(BadName);
    }
    if !(1 <= |spec.nodes| <= MAX_NODES && |spec.edges| <= MAX_EDGES &&
         1 <= Iterations(spec) <= MAX_ITERATIONS && 1 <= Parallelism(spec) <= 32) {
      return Err(BadCounts);
    }
    var ids: set<string> := {};
    for i := 0 to |spec.nodes|
      invariant forall id :: id in ids <==> exists j :: 0 <= j < i && spec.nodes[j].id == id
      invariant forall j, k :: 0 <= j < k < i ==> spec.nodes[j].id != spec.nodes[k].id
    {
      if spec.nodes[i].id in ids {
        return Err(DuplicateId);
      }
      ids := ids + {spec.nodes[i].id};
    }
    forall id ensures id in ids <==> id in Ids(spec.nodes) {
      if id in ids {
        var j :| 0 <= j < |spec.nodes| && spec.nodes[j].id == id;
        assert Ids(spec.nodes)[j] == id;
      }
    }
    if spec.entry !in ids {
      return Err(UnknownEntry);
    }
    for i := 0 to |spec.nodes|
      invariant forall j :: 0 <= j < i ==> ValidId(spec.nodes[j].id)
    {
      if !ValidId(spec.nodes[i].id) {
        return Err(BadNodeId);
      }
    }
    for i := 0 to |spec.edges|
      invariant forall j :: 0 <= j < i ==> EndpointsOk(spec.nodes, spec.edges[j])
    {
      if spec.edges[i].from !in ids || (spec.edges[i].to != "END" && spec.edges[i].to !in ids) {
        return Err(BadEdge);
      }
    }
    var verdict := ValidateStateWriteConflicts(spec);
    if verdict.Conflict? {
      return Err(WriteConflict);
    }
    r := Ok(());
  }

  // ---- A key declared twice --------------------------------------------------------------------

  lemma LastStep(adj: set<(nat, nat)>, c: nat, a: nat) returns (p: nat)
    requires Reaches(adj, c, a)
    ensures (p, a) in adj
  {
    var path :| IsPath(adj, path) && Joins(path, c, a);
    p := path[|path| - 2];
    assert (path[|path| - 2], path[|path| - 2 + 1]) in adj;
  }

  /** A node conflicts with itself exactly if it declares a key without reducer twice, has an incoming edge
    * and is on no cycle. */
  lemma SelfConflict(spec: GraphSpec, key: string, a: nat)
    requires a < |spec.nodes|
    ensures ConflictOn(spec, key, a, a) <==>
      && key !in spec.reducers && Occurrences(WriteKeys(spec.nodes[a]), key) >= 2
      && (exists p :: (p, a) in Adj(spec)) && !Reaches(Adj(spec), a, a)
  {
    hide WriteKeys, Occurrences, Reaches, Adj;
    if !Reaches(Adj(spec), a, a) {
      if p :| (p, a) in Adj(spec) {
        EdgeReaches(Adj(spec), p, a);
        EdgeInside(spec, p, a);
        assert IsCommonAncestor(Adj(spec), p, a, a);
      }
      if c: nat :| c < |spec.nodes| && IsCommonAncestor(Adj(spec), c, a, a) {
        var p := LastStep(Adj(spec), c, a);
      }
    }
  }

  lemma EdgeInside(spec: GraphSpec, p: nat, a: nat)
    requires (p, a) in Adj(spec)
    ensures p < |spec.nodes| && a < |spec.nodes|
  {
  }

  function SetOp(path: string): Json {
    Obj(map["path" := Str(path)])
  }

  /** One transform node that writes `k` twice. */
  function Twice(): GraphSpec {
    var config := Obj(map["operations" := Arr([SetOp("k"), SetOp("k")])]);
    GraphSpec("g", "e", [Idle("e"), NodeSpec("t", StateTransform, false, config)],
              [EdgeSpec("e", "t"), EdgeSpec("t", "END")], None, None, map[])
  }

  lemma TwiceWellFormed()
    ensures WellFormed(Twice())
  {
    var spec := Twice();
    var ids := Ids(spec.nodes);
    assert ids[0] == "e" && ids[1] == "t";
    assert spec.edges[0] == EdgeSpec("e", "t") && spec.edges[1] == EdgeSpec("t", "END");
    assert EndpointsOk(spec.nodes, spec.edges[0]) && EndpointsOk(spec.nodes, spec.edges[1]);
  }

  lemma TwiceWrites()
    ensures Occurrences(WriteKeys(Twice().nodes[1]), "k") == 2
  {
    var op := SetOp("k");
    assert StringField(op, "path") == Some("k");
    assert [op, op][..1] == [op] && [op][..0] == [] && OperationPaths([]) == [];
    assert OperationPaths([op]) == ["k"] && OperationPaths([op, op]) == ["k", "k"];
    hide OperationPaths, StringField;
    assert ["k", "k"][..1] == ["k"] && ["k"][..0] == [] && Occurrences([], "k") == 0;
    assert Occurrences(["k"], "k") == 1;
  }

  lemma TwiceEdges(x: nat, y: nat)
    ensures (x, y) in Adj(Twice()) <==> (x, y) == (0, 1)
  {
    var nodes, edges := Twice().nodes, Twice().edges;
    var ids := Ids(nodes);
    assert ids[0] == "e" && ids[1] == "t";
    assert edges[0] == EdgeSpec("e", "t") && edges[1] == EdgeSpec("t", "END");
    assert Inner(nodes, edges[0]) && !Inner(nodes, edges[1]) && EdgePair(nodes, edges[0]) == (0, 1);
    assert EdgePair(nodes, edges[0]) in Adj(Twice());
  }

  /** It is rejected as a conflict with itself. */
  lemma DeclaredTwice()
    ensures WellFormed(Twice()) && ConflictOn(Twice(), "k", 1, 1) && HasConflict(Twice())
  {
    TwiceWellFormed();
    TwiceWrites();
    hide WellFormed, WriteKeys, Occurrences, Adj, ConflictOn;
    TwiceEdges(0, 1);
    if Reaches(Adj(Twice()), 1, 1) {
      var path :| IsPath(Adj(Twice()), path) && Joins(path, 1, 1);
      TwiceEdges(path[0], path[0 + 1]);
    }
    SelfConflict(Twice(), "k", 1);
  }
}

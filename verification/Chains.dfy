/** The recogniser of linear graphs that may be checkpointed and resumed
  * (`resume_eligibility` in agent-graph-mcp/src/spec.rs). */
module Chains {
  import opened Values
  import opened GraphSpecs
  import opened Sorting

  datatype Ineligible =
    | ReducersDeclared
    | NodeNotAdmissible(id: string)
    | SuccessorCount(id: string)
    | EntryHasPredecessor
    | PredecessorCount(id: string)
    | LoopFound
    | UnknownSuccessor
    | NotOnChain

  /** Only local passthrough and transform nodes without an evidence dependency. */
  predicate Admissible(node: NodeSpec) {
    match node.nodeType
    case Passthrough =>
      !node.evidenceRequired && (node.config.Null? || (node.config.Obj? && node.config.fields == map[]))
    case StateTransform =>
      !node.evidenceRequired && node.config.Obj? && node.config.fields.Keys <= {"operations"}
    case _ => false
  }

  // ---- Chains -------------------------------------------------------------------------

  function NextOf(c: seq<string>, i: nat): string
    requires i < |c|
  {
    if i + 1 < |c| then c[i + 1] else "END"
  }

  /** The edges of a chain: each node to the next, and the last to END. */
  function Links(c: seq<string>): (r: seq<EdgeSpec>)
    ensures |r| == |c| && forall i :: 0 <= i < |r| ==> r[i] == EdgeSpec(c[i], NextOf(c, i))
  {
    seq(|c|, i requires 0 <= i < |c| => EdgeSpec(c[i], NextOf(c, i)))
  }

  /** The edges of the graph are one path from the entry through every node once to END, each edge
    * listed once. (A later node must not itself be called END.) */
  ghost predicate IsChain(spec: GraphSpec, c: seq<string>) {
    && c != [] && c[0] == spec.entry && NoDup(c)
    && (forall id :: id in c <==> id in Ids(spec.nodes))
    && NoDup(spec.edges)
    && (forall e :: e in spec.edges <==> e in Links(c))
    && (forall i :: 0 < i < |c| ==> c[i] != "END")
  }

  function Succ(edges: seq<EdgeSpec>, id: string): seq<string> {
    if edges == [] then []
    else
      var last := edges[|edges| - 1];
      Succ(edges[..|edges| - 1], id) + if last.from == id then [last.to] else []
  }

  /** Edges to END are not counted. */
  function PredCount(edges: seq<EdgeSpec>, id: string): nat {
    if edges == [] then 0
    else
      var last := edges[|edges| - 1];
      PredCount(edges[..|edges| - 1], id) + if last.to == id && last.to != "END" then 1 else 0
  }

  /** What the counting checks establish. */
  ghost predicate Linear(spec: GraphSpec) {
    && (forall id :: id in Ids(spec.nodes) ==> |Succ(spec.edges, id)| == 1)
    && PredCount(spec.edges, spec.entry) == 0
    && (forall id :: id in Ids(spec.nodes) && id != spec.entry ==> PredCount(spec.edges, id) == 1)
  }

  lemma {:induction false} SuccMember(edges: seq<EdgeSpec>, id: string, to: string)
    ensures to in Succ(edges, id) <==> EdgeSpec(id, to) in edges
    decreases |edges|
  {
    if edges != [] {
      var n := |edges| - 1;
      SuccMember(edges[..n], id, to);
      assert edges == edges[..n] + [edges[n]];
    }
  }

  lemma {:induction false} SuccPositive(edges: seq<EdgeSpec>, id: string, q: nat)
    requires q < |edges| && edges[q].from == id
    ensures |Succ(edges, id)| >= 1
  {
    SuccMember(edges, id, edges[q].to);
  }

  lemma {:induction false} SuccTwice(edges: seq<EdgeSpec>, id: string, q: nat, r: nat)
    requires q < r < |edges| && edges[q].from == edges[r].from == id
    ensures |Succ(edges, id)| >= 2
    decreases |edges|
  {
    var n := |edges| - 1;
    if r < n {
      SuccTwice(edges[..n], id, q, r);
    } else {
      SuccPositive(edges[..n], id, q);
    }
  }

  lemma {:induction false} SuccAtMostOnce(edges: seq<EdgeSpec>, e: EdgeSpec)
    requires NoDup(edges) && forall q :: 0 <= q < |edges| && edges[q].from == e.from ==> edges[q] == e
    ensures Succ(edges, e.from) == if e in edges then [e.to] else []
    decreases |edges|
  {
    if edges != [] {
      var n := |edges| - 1;
      SuccAtMostOnce(edges[..n], e);
      assert edges == edges[..n] + [edges[n]];
    }
  }

  lemma {:induction false} PredPositive(edges: seq<EdgeSpec>, id: string, q: nat)
    requires q < |edges| && edges[q].to == id && id != "END"
    ensures PredCount(edges, id) >= 1
    decreases |edges|
  {
    var n := |edges| - 1;
    if q < n {
      PredPositive(edges[..n], id, q);
    }
  }

  lemma {:induction false} PredTwice(edges: seq<EdgeSpec>, id: string, q: nat, r: nat)
    requires q < r < |edges| && edges[q].to == edges[r].to == id && id != "END"
    ensures PredCount(edges, id) >= 2
    decreases |edges|
  {
    var n := |edges| - 1;
    if r < n {
      PredTwice(edges[..n], id, q, r);
    } else {
      PredPositive(edges[..n], id, q);
    }
  }

  lemma {:induction false} PredAtMostOnce(edges: seq<EdgeSpec>, e: EdgeSpec)
    requires NoDup(edges) && forall q :: 0 <= q < |edges| && edges[q].to == e.to ==> edges[q] == e
    ensures PredCount(edges, e.to) == if e in edges && e.to != "END" then 1 else 0
    decreases |edges|
  {
    if edges != [] {
      var n := |edges| - 1;
      PredAtMostOnce(edges[..n], e);
      assert edges == edges[..n] + [edges[n]];
    }
  }

  lemma {:induction false} PredNone(edges: seq<EdgeSpec>, id: string)
    requires forall q :: 0 <= q < |edges| && edges[q].to != "END" ==> edges[q].to != id
    ensures PredCount(edges, id) == 0
    decreases |edges|
  {
    if edges != [] {
      PredNone(edges[..|edges| - 1], id);
    }
  }

  // ---- Chains are linear ----------------------------------------------------------------

  lemma LinkOf(spec: GraphSpec, c: seq<string>, q: nat) returns (i: nat)
    requires IsChain(spec, c) && q < |spec.edges|
    ensures i < |c| && spec.edges[q] == EdgeSpec(c[i], NextOf(c, i))
  {
    assert spec.edges[q] in spec.edges;
    assert spec.edges[q] in Links(c);
    i :| 0 <= i < |c| && Links(c)[i] == spec.edges[q];
  }

  lemma ChainSucc(spec: GraphSpec, c: seq<string>, i: nat)
    requires IsChain(spec, c) && i < |c|
    ensures Succ(spec.edges, c[i]) == [NextOf(c, i)]
  {
    var e := EdgeSpec(c[i], NextOf(c, i));
    assert Links(c)[i] == e;
    forall q | 0 <= q < |spec.edges| && spec.edges[q].from == e.from ensures spec.edges[q] == e {
      var j := LinkOf(spec, c, q);
      assert j == i;
    }
    SuccAtMostOnce(spec.edges, e);
  }

  lemma ChainPred(spec: GraphSpec, c: seq<string>, i: nat)
    requires IsChain(spec, c) && i < |c|
    ensures PredCount(spec.edges, c[i]) == if i == 0 then 0 else 1
  {
    if i == 0 {
      forall q | 0 <= q < |spec.edges| && spec.edges[q].to != "END" ensures spec.edges[q].to != c[0] {
        var j := LinkOf(spec, c, q);
      }
      PredNone(spec.edges, c[0]);
    } else {
      var e := EdgeSpec(c[i - 1], c[i]);
      assert Links(c)[i - 1] == e;
      forall q | 0 <= q < |spec.edges| && spec.edges[q].to == e.to ensures spec.edges[q] == e {
        var j := LinkOf(spec, c, q);
        assert j == i - 1;
      }
      PredAtMostOnce(spec.edges, e);
    }
  }

  lemma ChainLinear(spec: GraphSpec, c: seq<string>)
    requires IsChain(spec, c)
    ensures Linear(spec)
  {
    forall id | id in Ids(spec.nodes)
      ensures |Succ(spec.edges, id)| == 1 && PredCount(spec.edges, id) == if id == spec.entry then 0 else 1
    {
      var i :| 0 <= i < |c| && c[i] == id;
      ChainSucc(spec, c, i);
      ChainPred(spec, c, i);
    }
    assert spec.entry in c;
  }

  // ---- Walks -------------------------------------------------------------------------------

  /** A walk from the entry along edges, without repetition, that has not met END. */
  ghost predicate IsWalk(spec: GraphSpec, w: seq<string>) {
    && NoDup(w)
    && (forall i :: 0 <= i < |w| ==> w[i] in Ids(spec.nodes))
    && (w != [] ==> w[0] == spec.entry)
    && (forall i :: 0 <= i < |w| - 1 ==> EdgeSpec(w[i], w[i + 1]) in spec.edges)
    && (forall i :: 0 < i < |w| ==> w[i] != "END")
  }

  /** The node the walk comes to next. */
  ghost predicate ComesTo(spec: GraphSpec, w: seq<string>, current: string) {
    if w == [] then current == spec.entry
    else EdgeSpec(w[|w| - 1], current) in spec.edges && current != "END"
  }

  /** In a linear graph a walk never comes back: the entry has no predecessor and every other node
    * only one. */
  lemma NoRevisit(spec: GraphSpec, w: seq<string>, current: string)
    requires Linear(spec) && IsWalk(spec, w) && ComesTo(spec, w, current)
    ensures current !in w
  {
    if current in w {
      var i :| 0 <= i < |w| && w[i] == current;
      var q :| 0 <= q < |spec.edges| && spec.edges[q] == EdgeSpec(w[|w| - 1], current);
      if i == 0 {
        PredPositive(spec.edges, current, q);
      } else {
        assert EdgeSpec(w[i - 1], w[i - 1 + 1]) in spec.edges;
        var r :| 0 <= r < |spec.edges| && spec.edges[r] == EdgeSpec(w[i - 1], current);
        if q < r {
          PredTwice(spec.edges, current, q, r);
        } else {
          PredTwice(spec.edges, current, r, q);
        }
      }
    }
  }

  lemma WalkFits(spec: GraphSpec, w: seq<string>)
    requires IsWalk(spec, w)
    ensures |w| <= |spec.nodes|
    ensures |w| == |spec.nodes| ==> forall id :: id in w <==> id in Ids(spec.nodes)
  {
    var visited, ids := set x | x in w, set x | x in Ids(spec.nodes);
    NoDupSize(w);
    SetOfSize(Ids(spec.nodes));
    assert visited <= ids;
    assert ids == visited + (ids - visited);
    assert |visited + (ids - visited)| == |visited| + |ids - visited|;
    if |w| == |spec.nodes| {
      SubsetEqual(visited, ids);
      forall id ensures id in w <==> id in Ids(spec.nodes) {
        assert id in visited <==> id in ids;
      }
    }
  }

  lemma {:induction false} SetOfSize<T>(s: seq<T>)
    ensures |set x | x in s| <= |s|
  {
    var all := set x | x in s;
    if s == [] {
      assert all == {};
    } else {
      var n := |s| - 1;
      SetOfSize(s[..n]);
      assert s == s[..n] + [s[n]];
      assert all == (set x | x in s[..n]) + {s[n]};
    }
  }

  /** A walk that covers all nodes and ends at END is the chain. */
  lemma WalkIsChain(spec: GraphSpec, w: seq<string>)
    requires WellFormed(spec) && Linear(spec) && IsWalk(spec, w) && |w| == |spec.nodes|
    requires w != [] && EdgeSpec(w[|w| - 1], "END") in spec.edges
    ensures IsChain(spec, w)
  {
    WalkFits(spec, w);
    var edges := spec.edges;
    forall q, r | 0 <= q < r < |edges| ensures edges[q].from != edges[r].from {
      assert EndpointsOk(spec.nodes, edges[q]);
      if edges[q].from == edges[r].from {
        SuccTwice(edges, edges[q].from, q, r);
      }
    }
    forall i | 0 <= i < |w| ensures Links(w)[i] in edges {
    }
    forall e ensures e in edges <==> e in Links(w) {
      if e in edges {
        var q :| 0 <= q < |edges| && edges[q] == e;
        assert EndpointsOk(spec.nodes, edges[q]);
        assert e.from in w;
        var i :| 0 <= i < |w| && w[i] == e.from;
        assert Links(w)[i] in edges;
        var r :| 0 <= r < |edges| && edges[r] == Links(w)[i];
        assert q == r;
      }
    }
  }

  /** A complete walk cannot differ from a chain of the graph. */
  lemma {:induction false} WalkFollowsChain(spec: GraphSpec, w: seq<string>, c: seq<string>, n: nat)
    requires IsChain(spec, c) && IsWalk(spec, w) && n < |w|
    ensures n < |c| && w[n] == c[n]
  {
    if n > 0 {
      WalkFollowsChain(spec, w, c, n - 1);
      ChainSucc(spec, c, n - 1);
      assert EdgeSpec(w[n - 1], w[n - 1 + 1]) in spec.edges;
      SuccMember(spec.edges, w[n - 1], w[n]);
    }
  }

  lemma CompleteWalkIsChain(spec: GraphSpec, w: seq<string>, c: seq<string>)
    requires IsChain(spec, c) && IsWalk(spec, w) && w != [] && EdgeSpec(w[|w| - 1], "END") in spec.edges
    ensures w == c
  {
    forall n | 0 <= n < |w| ensures n < |c| && w[n] == c[n] {
      WalkFollowsChain(spec, w, c, n);
    }
    ChainSucc(spec, c, |w| - 1);
    SuccMember(spec.edges, c[|w| - 1], "END");
    assert w == c[..|w|];
  }

  /** A graph has at most one chain. */
  lemma ChainUnique(spec: GraphSpec, c: seq<string>, d: seq<string>)
    requires IsChain(spec, c) && IsChain(spec, d)
    ensures c == d
  {
    forall i | 0 <= i < |c| ensures Links(c)[i] in spec.edges {
      assert Links(c)[i] in Links(c);
    }
    assert Links(c)[|c| - 1] == EdgeSpec(c[|c| - 1], "END");
    forall i | 0 <= i < |c| - 1 ensures EdgeSpec(c[i], c[i + 1]) in spec.edges {
      assert Links(c)[i] == EdgeSpec(c[i], c[i + 1]);
    }
    forall i | 0 <= i < |c| ensures c[i] in Ids(spec.nodes) {
      assert c[i] in c;
    }
    CompleteWalkIsChain(spec, c, d);
  }

  lemma ChainCovers(spec: GraphSpec, c: seq<string>)
    requires WellFormed(spec) && IsChain(spec, c)
    ensures |c| == |spec.nodes|
  {
    var ids := Ids(spec.nodes);
    NoDupSize(c);
    NoDupSize(ids);
    assert (set x | x in c) == (set x | x in ids);
  }

  // ---- The recogniser ------------------------------------------------------------------------

  function SuccListed(successors: map<string, seq<string>>, id: string): seq<string> {
    if id in successors then successors[id] else []
  }

  ghost predicate Tables(nodes: seq<NodeSpec>, edges: seq<EdgeSpec>, successors: map<string, seq<string>>,
                         predecessors: map<string, nat>) {
    && (forall id :: SuccListed(successors, id) == Succ(edges, id))
    && (forall id :: id in predecessors <==> id in Ids(nodes))
    && (forall id :: id in predecessors ==> predecessors[id] == PredCount(edges, id))
  }

  method BuildTables(spec: GraphSpec) returns (successors: map<string, seq<string>>, predecessors: map<string, nat>)
    requires WellFormed(spec)
    ensures Tables(spec.nodes, spec.edges, successors, predecessors)
  {
    hide Succ, PredCount;
    TablesEmpty(spec.nodes);
    successors := map[];
    predecessors := map id | id in Ids(spec.nodes) :: 0;
    for i := 0 to |spec.edges|
      invariant Tables(spec.nodes, spec.edges[..i], successors, predecessors)
    {
      var edge := spec.edges[i];
      assert EndpointsOk(spec.nodes, edge);
      ghost var s, p := successors, predecessors;
      var targets := if edge.from in successors then successors[edge.from] else [];
      successors := successors[edge.from := targets + [edge.to]];
      if edge.to != "END" {
        predecessors := predecessors[edge.to := predecessors[edge.to] + 1];
      }
      TablesNext(spec.nodes, spec.edges[..i], edge, spec.edges[..i + 1], s, p, successors, predecessors);
    }
    assert spec.edges[..|spec.edges|] == spec.edges;
  }

  lemma {:induction false} TablesEmpty(nodes: seq<NodeSpec>)
    ensures Tables(nodes, [], map[], map id | id in Ids(nodes) :: 0)
  {
  }

  lemma {:induction false} TablesNext(nodes: seq<NodeSpec>, edges: seq<EdgeSpec>, e: EdgeSpec, more: seq<EdgeSpec>,
                   s: map<string, seq<string>>, p: map<string, nat>, s': map<string, seq<string>>, p': map<string, nat>)
    requires Tables(nodes, edges, s, p) && more == edges + [e] && (e.to == "END" || e.to in p)
    requires s' == s[e.from := SuccListed(s, e.from) + [e.to]]
    requires p' == if e.to == "END" then p else p[e.to := p[e.to] + 1]
    ensures Tables(nodes, more, s', p')
  {
    assert more[..|edges|] == edges;
    forall id ensures SuccListed(s', id) == Succ(more, id) {
      assert SuccListed(s, id) == Succ(edges, id);
    }
  }

  /** Whether the lookup table gives every node exactly one successor. */
  method CheckSuccessors(spec: GraphSpec, successors: map<string, seq<string>>) returns (r: Result<(), Ineligible>)
    requires forall id :: SuccListed(successors, id) == Succ(spec.edges, id)
    ensures r.Ok? <==> forall id :: id in Ids(spec.nodes) ==> |Succ(spec.edges, id)| == 1
    ensures r.Err? ==> r.error.SuccessorCount?
  {
    hide Succ;
    var ids := Ids(spec.nodes);
    for i := 0 to |ids|
      invariant forall j :: 0 <= j < i ==> |Succ(spec.edges, ids[j])| == 1
    {
      var count := if ids[i] in successors then |successors[ids[i]]| else 0;
      assert |SuccListed(successors, ids[i])| == count;
      if count != 1 {
        assert ids[i] in Ids(spec.nodes) && |Succ(spec.edges, ids[i])| != 1;
        return Err(SuccessorCount(ids[i]));
      }
    }
    r := Ok(());
  }

  /** Whether the lookup table gives every node but the entry exactly one predecessor. */
  method CheckPredecessors(spec: GraphSpec, predecessors: map<string, nat>) returns (r: Result<(), Ineligible>)
    requires spec.entry in Ids(spec.nodes) && predecessors.Keys == (set id | id in Ids(spec.nodes))
    requires forall id :: id in predecessors ==> predecessors[id] == PredCount(spec.edges, id)
    ensures r.Ok? <==>
      && PredCount(spec.edges, spec.entry) == 0
      && forall id :: id in Ids(spec.nodes) && id != spec.entry ==> PredCount(spec.edges, id) == 1
    ensures r.Err? ==> r.error.EntryHasPredecessor? || r.error.PredecessorCount?
  {
    hide PredCount;
    if (if spec.entry in predecessors then predecessors[spec.entry] else 0) != 0 {
      return Err(EntryHasPredecessor);
    }
    var ids := Ids(spec.nodes);
    for i := 0 to |ids|
      invariant forall j :: 0 <= j < i && ids[j] != spec.entry ==> PredCount(spec.edges, ids[j]) == 1
    {
      if ids[i] != spec.entry && !(ids[i] in predecessors && predecessors[ids[i]] == 1) {
        return Err(PredecessorCount(ids[i]));
      }
    }
    r := Ok(());
  }

  lemma WalkStep(spec: GraphSpec, w: seq<string>, current: string, longer: seq<string>)
    requires Linear(spec) && IsWalk(spec, w) && ComesTo(spec, w, current) && current in Ids(spec.nodes)
    requires longer == w + [current]
    ensures current !in w && IsWalk(spec, longer) && |w| < |longer| <= |spec.nodes|
    ensures EdgeSpec(current, "END") in spec.edges ==> EdgeSpec(longer[|longer| - 1], "END") in spec.edges
  {
    hide Linear;
    NoRevisit(spec, w, current);
    WalkFits(spec, longer);
  }

  lemma WalkTo(spec: GraphSpec, w: seq<string>, current: string, next: string)
    requires w != [] && w[|w| - 1] == current && EdgeSpec(current, next) in spec.edges && next != "END"
    ensures ComesTo(spec, w, next)
  {
  }

  lemma EdgeTarget(spec: GraphSpec, e: EdgeSpec)
    requires WellFormed(spec) && e in spec.edges
    ensures e.from in Ids(spec.nodes) && (e.to == "END" || e.to in Ids(spec.nodes))
  {
    var q :| 0 <= q < |spec.edges| && spec.edges[q] == e;
    assert EndpointsOk(spec.nodes, spec.edges[q]);
  }

  /** Where the walk goes from a node: the table lookup succeeds and names a node or END. */
  lemma NextInTable(spec: GraphSpec, successors: map<string, seq<string>>, predecessors: map<string, nat>,
                    current: string)
    requires WellFormed(spec) && Linear(spec) && Tables(spec.nodes, spec.edges, successors, predecessors)
    requires current in Ids(spec.nodes)
    ensures current in successors && |successors[current]| == 1
    ensures var next := successors[current][0];
      EdgeSpec(current, next) in spec.edges && (next != "END" ==> next in Ids(spec.nodes) && next in predecessors)
  {
    assert SuccListed(successors, current) == Succ(spec.edges, current);
    var next := successors[current][0];
    SuccMember(spec.edges, current, next);
    EdgeTarget(spec, EdgeSpec(current, next));
  }

  /** The walk from the entry. The table lookups always succeed, and of its three errors only the
    * last can occur. */
  method Walk(spec: GraphSpec, successors: map<string, seq<string>>, predecessors: map<string, nat>)
    returns (r: Result<seq<string>, Ineligible>)
    requires WellFormed(spec) && Linear(spec) && Tables(spec.nodes, spec.edges, successors, predecessors)
    ensures r.Ok? ==> IsChain(spec, r.value)
    ensures r.Err? ==> r.error == NotOnChain && forall c :: !IsChain(spec, c)
  {
    var chain: seq<string> := [];
    var current := spec.entry;
    var seen: set<string> := {};
    assert spec.entry in Ids(spec.nodes) && IsWalk(spec, chain) && ComesTo(spec, chain, current);
    hide Succ, PredCount, WellFormed, IsChain, Linear, IsWalk, ComesTo, Tables;
    while true
      invariant IsWalk(spec, chain) && ComesTo(spec, chain, current) && current in Ids(spec.nodes)
      invariant forall id :: id in seen <==> id in chain
      decreases |spec.nodes| - |chain|
    {
      WalkStep(spec, chain, current, chain + [current]);
      if current in seen {
        return Err(LoopFound);
      }
      seen := seen + {current};
      chain := chain + [current];
      NextInTable(spec, successors, predecessors, current);
      var next := successors[current][0];
      if next == "END" {
        break;
      }
      if next !in predecessors {
        return Err(UnknownSuccessor);
      }
      WalkTo(spec, chain, current, next);
      current := next;
    }
    if |chain| != |spec.nodes| {
      forall c ensures !IsChain(spec, c) {
        if IsChain(spec, c) {
          CompleteWalkIsChain(spec, chain, c);
          ChainCovers(spec, c);
        }
      }
      return Err(NotOnChain);
    }
    WalkIsChain(spec, chain);
    r := Ok(chain);
  }

  /** A node that depends on nothing outside: it passes the state on without a configuration, or transforms it with
    * nothing but operations, and needs no evidence. */
  ghost predicate Local(node: NodeSpec) {
    && !node.evidenceRequired && node.nodeType in {Passthrough, StateTransform}
    && (node.nodeType == Passthrough ==> node.config in {Null, Obj(map[])})
    && (node.nodeType == StateTransform ==>
          node.config.Obj? && forall key :: key in node.config.fields ==> key == "operations")
  }

  lemma AdmissibleIsLocal(node: NodeSpec)
    ensures Admissible(node) <==> Local(node)
  {
  }

  ghost predicate AllAdmissible(spec: GraphSpec) {
    spec.reducers == map[] && forall i :: 0 <= i < |spec.nodes| ==> Local(spec.nodes[i])
  }

  /** Main result. On a validated specification the recogniser succeeds exactly if there are no
    * reducers, all nodes are admissible and the edges form one chain, and it returns that chain. */
  method ResumeEligibility(spec: GraphSpec) returns (r: Result<seq<string>, Ineligible>)
    requires WellFormed(spec)
    ensures r.Ok? <==> AllAdmissible(spec) && exists c :: IsChain(spec, c)
    ensures r.Ok? ==> IsChain(spec, r.value)
    ensures r.Err? ==> r.error != LoopFound && r.error != UnknownSuccessor
  {
    hide Admissible, Local, Succ, PredCount;
    if spec.reducers != map[] {
      return Err(ReducersDeclared);
    }
    for i := 0 to |spec.nodes|
      invariant forall j :: 0 <= j < i ==> Local(spec.nodes[j])
    {
      AdmissibleIsLocal(spec.nodes[i]);
      if !Admissible(spec.nodes[i]) {
        return Err(NodeNotAdmissible(spec.nodes[i].id));
      }
    }
    var successors, predecessors := BuildTables(spec);
    forall c | IsChain(spec, c) ensures Linear(spec) {
      ChainLinear(spec, c);
    }
    assert spec.entry in Ids(spec.nodes);
    hide IsChain, WellFormed;
    var counts := CheckSuccessors(spec, successors);
    if counts.Ok? {
      counts := CheckPredecessors(spec, predecessors);
    }
    if counts.Err? {
      return Err(counts.error);
    }
    r := Walk(spec, successors, predecessors);
  }
}

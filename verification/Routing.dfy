/** Where navigation leads: the targets of edges, routers and commands, and the lists made of them
  * (agent-graph/src/engine.rs). */
module Routing {
  import opened Values
  import opened Graphs
  import opened EngineSpec

  // ---- Edges ----------------------------------------------------------------------------------

  /** The targets of one edge: the node of a plain one, and what its router answers for a conditional one. */
  ghost predicate LeadsTo(edge: EdgeType, data: Data, targets: seq<string>) {
    || (edge.Normal? && targets == [edge.to])
    || (edge.Conditional? && edge.route(data) == Ok(Next(None)) && targets == [])
    || (edge.Conditional? && edge.route(data) == Ok(FanOut(targets)))
    || (|targets| == 1 && edge.Conditional? && edge.route(data) == Ok(Next(Some(targets[0]))))
  }

  function Flatten(parts: seq<seq<string>>): seq<string> {
    if parts == [] then [] else parts[0] + Flatten(parts[1..])
  }

  lemma {:induction false} FlattenMore(parts: seq<seq<string>>, last: seq<string>)
    ensures Flatten(parts + [last]) == Flatten(parts) + last
    decreases |parts|
  {
    if parts == [] {
      assert Flatten([last]) == last + Flatten([last][1..]);
    } else {
      assert (parts + [last])[1..] == parts[1..] + [last];
      FlattenMore(parts[1..], last);
    }
  }

  /** The router of edge `i` fails, and none before it does. */
  ghost predicate FirstFailure(edges: seq<EdgeType>, data: Data, i: nat, code: int) {
    && i < |edges| && edges[i].Conditional? && edges[i].route(data) == Err(code)
    && forall j :: 0 <= j < i ==> edges[j].Conditional? ==> edges[j].route(data).Ok?
  }

  /** The targets of a list of edges are those of every edge, in order; the error is that of the first router
    * that fails. */
  lemma {:induction false} RoutesInOrder(edges: seq<EdgeType>, data: Data) returns (parts: seq<seq<string>>, failed: nat)
    ensures RouteAll(edges, data).Ok? <==> forall i :: 0 <= i < |edges| ==> edges[i].Conditional? ==> edges[i].route(data).Ok?
    ensures RouteAll(edges, data).Ok? ==>
      && |parts| == |edges| && (forall i :: 0 <= i < |edges| ==> LeadsTo(edges[i], data, parts[i]))
      && RouteAll(edges, data) == Ok(Flatten(parts))
    ensures RouteAll(edges, data).Err? ==> FirstFailure(edges, data, failed, RouteAll(edges, data).error)
    decreases |edges|
  {
    parts, failed := [], 0;
    if edges != [] {
      var n := |edges| - 1;
      parts, failed := RoutesInOrder(edges[..n], data);
      assert edges[n].Conditional? && edges[n].route(data).Err? ==> RouteAll(edges, data).Err?;
      if RouteAll(edges[..n], data).Ok? {
        if RouteOne(edges[n], data).Ok? {
          var last := RouteOne(edges[n], data).value;
          FlattenMore(parts, last);
          parts := parts + [last];
        } else {
          failed := n;
        }
      }
    }
  }

  // ---- Commands -------------------------------------------------------------------------------

  /** Where an output leads: a command goes where it says, whatever the edges, and everything else follows them. */
  lemma OutputLeads(g: Graph, data: Data, name: string, output: NodeOutput)
    ensures output.Done? || output.goto.Default? ==>
      ResolveOutput(g, data, name, output) == if name in g.edges then RouteAll(g.edges[name], data) else Ok([])
    ensures output.Command? && output.goto.GotoNode? ==> ResolveOutput(g, data, name, output) == Ok([output.goto.name])
    ensures output.Command? && output.goto.GotoNodes? ==> ResolveOutput(g, data, name, output) == Ok(output.goto.names)
    ensures output.Command? && output.goto.GotoEnd? ==> ResolveOutput(g, data, name, output) == Ok(["__end__"])
    ensures output.Command? && output.goto.Send? ==>
      var targets := ResolveOutput(g, data, name, output);
      && targets.Ok? && |targets.value| == |output.goto.ops|
      && forall i :: 0 <= i < |output.goto.ops| ==> targets.value[i] == output.goto.ops[i].node
  {
  }

  /** The targets of all branches of a superstep are those of every branch, in branch order. */
  lemma {:induction false} BranchesLead(g: Graph, data: Data, results: seq<BranchResult>) returns (parts: seq<seq<string>>)
    ensures ResolveAll(g, data, results).Ok? <==>
      forall i :: 0 <= i < |results| ==> ResolveOutput(g, data, results[i].name, results[i].output).Ok?
    ensures ResolveAll(g, data, results).Ok? ==>
      && |parts| == |results| && ResolveAll(g, data, results) == Ok(Flatten(parts))
      && forall i :: 0 <= i < |results| ==> ResolveOutput(g, data, results[i].name, results[i].output) == Ok(parts[i])
    decreases |results|
  {
    hide ResolveOutput;
    parts := [];
    if results != [] {
      var n := |results| - 1;
      parts := BranchesLead(g, data, results[..n]);
      var last := ResolveOutput(g, data, results[n].name, results[n].output);
      if last.Ok? {
        FlattenMore(parts, last.value);
        parts := parts + [last.value];
      }
    }
  }

  // ---- The next frontier ----------------------------------------------------------------------

  /** The names but the end, in their order. */
  lemma {:induction false} DropEndKeepsOrder(before: seq<string>, after: seq<string>)
    ensures DropEnd(before + after) == DropEnd(before) + DropEnd(after)
    decreases |after|
  {
    if after == [] {
      assert before + after == before;
    } else {
      var n := |after| - 1;
      assert (before + after)[..|before| + n] == before + after[..n];
      DropEndKeepsOrder(before, after[..n]);
      DropEndLast(before + after);
      DropEndLast(after);
      hide DropEnd;
      assert DropEnd(before) + DropEnd(after[..n]) + (if after[n] == END then [] else [after[n]]) ==
        DropEnd(before) + DropEnd(after);
    }
  }

  lemma DropEndLast(s: seq<string>)
    requires s != []
    ensures DropEnd(s) == DropEnd(s[..|s| - 1]) + if s[|s| - 1] == END then [] else [s[|s| - 1]]
  {
  }

  lemma DropEndOne(name: string)
    ensures DropEnd([name]) == if name == "__end__" then [] else [name]
  {
    assert [name][..0] == [];
  }

  /** Where a name first stands. */
  function FirstAt(s: seq<string>, name: string): (i: nat)
    requires name in s
    ensures i < |s| && s[i] == name && forall j :: 0 <= j < i ==> s[j] != name
  {
    if s[0] == name then 0 else 1 + FirstAt(s[1..], name)
  }

  /** Deduplication lists the names in the order in which they first occur. */
  lemma {:induction false} DedupKeepsOrder(s: seq<string>, i: nat, j: nat)
    requires i < j < |Dedup(s)|
    ensures FirstAt(s, Dedup(s)[i]) < FirstAt(s, Dedup(s)[j])
    decreases |s|
  {
    var n := |s| - 1;
    var less := Dedup(s[..n]);
    assert s == s[..n] + [s[n]];
    assert Dedup(s)[i] in s[..n];
    FirstStays(s, n, Dedup(s)[i]);
    if j < |less| {
      DedupKeepsOrder(s[..n], i, j);
      FirstStays(s, n, Dedup(s)[j]);
    }
  }

  lemma FirstStays(s: seq<string>, n: nat, name: string)
    requires n <= |s| && name in s[..n]
    ensures name in s && FirstAt(s, name) == FirstAt(s[..n], name)
  {
    var i := FirstAt(s[..n], name);
    assert s[i] == name;
    var j := FirstAt(s, name);
    assert j < n ==> s[..n][j] == name;
    assert forall k :: 0 <= k < i ==> s[k] == s[..n][k];
  }
}

/** The static check for conflicting writes against the supersteps of a run. */
module Races {
  import opened Values
  import opened Reducers
  import opened AgentStates
  import opened Graphs
  import opened Sorting
  import opened Merging
  import opened EngineSpec
  import opened Closure
  import opened GraphSpecs
  import opened Chains
  import opened Compiling
  import opened Following

  ghost predicate Declares(spec: GraphSpec, id: string, key: string) {
    exists i :: 0 <= i < |spec.nodes| && spec.nodes[i].id == id && Occurrences(WriteKeys(spec.nodes[i]), key) >= 1
  }

  /** Two different nodes that declare the same key stand in one frontier. */
  ghost predicate RacesOn(spec: GraphSpec, frontier: seq<string>, key: string) {
    exists a, b :: a in frontier && b in frontier && a != b && Declares(spec, a, key) && Declares(spec, b, key)
  }

  ghost predicate Parts(spec: GraphSpec, v: seq<string>, w: seq<string>, key: string) {
    && EntryWalk(spec, v) && EntryWalk(spec, w) && |v| == |w| && v[|v| - 1] != w[|w| - 1]
    && Declares(spec, v[|v| - 1], key) && Declares(spec, w[|w| - 1], key)
  }

  /** Two different writers of the key end entry walks of one length. */
  ghost predicate SharedLevel(spec: GraphSpec, key: string) {
    exists v, w :: Parts(spec, v, w, key)
  }

  /** A run that follows the edges races only on a shared level. */
  lemma RaceNeedsSharedLevel(spec: GraphSpec, env: Env, start: Point, n: nat, key: string)
    requires FollowsEdges(spec, env, start) && After(env, start, n).Some?
    requires RacesOn(spec, After(env, start, n).value.frontier, key)
    ensures SharedLevel(spec, key)
  {
    hide After, Declares, FollowsEdges;
    var f := After(env, start, n).value.frontier;
    var a, b :| a in f && b in f && a != b && Declares(spec, a, key) && Declares(spec, b, key);
    var v := FrontierWalk(spec, env, start, n, a);
    var w := FrontierWalk(spec, env, start, n, b);
    assert Parts(spec, v, w, key);
  }

  /** And where every edge is followed a shared level is a race, once the run gets that far and no node
    * of the two walks is called like the end of a graph. */
  lemma SharedLevelRaces(spec: GraphSpec, env: Env, start: Point, v: seq<string>, w: seq<string>, key: string)
    requires WellFormed(spec) && Compiled(spec, env.graph) && NavigatesByEdges(env)
    requires start.frontier == StartList(spec) && END !in v && END !in w
    requires Parts(spec, v, w, key) && After(env, start, |v| - 1).Some?
    ensures RacesOn(spec, After(env, start, |v| - 1).value.frontier, key)
  {
    hide After, Declares, WellFormed, Compiled, NavigatesByEdges, StartList;
    WalkReached(spec, env, start, v);
    WalkReached(spec, env, start, w);
  }

  // ---- Levelled graphs ------------------------------------------------------------------

  /** All walks from the entry to a node have one length. */
  ghost predicate Levelled(spec: GraphSpec) {
    forall v, w :: EntryWalk(spec, v) && EntryWalk(spec, w) && v[|v| - 1] == w[|w| - 1] ==> |v| == |w|
  }

  lemma LinkIsPair(spec: GraphSpec, from: string, to: string)
    requires WellFormed(spec) && Linked(spec, from, to)
    ensures from in Ids(spec.nodes) && to in Ids(spec.nodes)
    ensures (Position(Ids(spec.nodes), from), Position(Ids(spec.nodes), to)) in Adj(spec)
  {
    EdgeTarget(spec, EdgeSpec(from, to));
    var i :| 0 <= i < |spec.edges| && spec.edges[i] == EdgeSpec(from, to);
    assert Inner(spec.nodes, spec.edges[i]);
    assert EdgePair(spec.nodes, spec.edges[i]) in Adjacency(spec.nodes, spec.edges);
  }

  lemma PairIsLink(spec: GraphSpec, x: nat, y: nat)
    requires (x, y) in Adj(spec)
    ensures x < |spec.nodes| && y < |spec.nodes| && Linked(spec, Ids(spec.nodes)[x], Ids(spec.nodes)[y])
  {
    var i :| 0 <= i < |spec.edges| && Inner(spec.nodes, spec.edges[i]) && EdgePair(spec.nodes, spec.edges[i]) == (x, y);
  }

  lemma {:induction false} WalkNodes(spec: GraphSpec, w: seq<string>, i: nat)
    requires WellFormed(spec) && EntryWalk(spec, w) && i < |w|
    ensures w[i] in Ids(spec.nodes)
  {
    if i > 0 {
      LinkIsPair(spec, w[i - 1], w[i]);
    }
  }

  /** The entry reaches the end of every longer walk. */
  lemma WalkReaches(spec: GraphSpec, w: seq<string>)
    requires WellFormed(spec) && EntryWalk(spec, w) && |w| >= 2
    ensures spec.entry in Ids(spec.nodes) && w[|w| - 1] in Ids(spec.nodes)
    ensures Reaches(Adj(spec), Position(Ids(spec.nodes), spec.entry), Position(Ids(spec.nodes), w[|w| - 1]))
  {
    hide WellFormed, Adj;
    var ids := Ids(spec.nodes);
    forall i | 0 <= i < |w| ensures w[i] in ids {
      WalkNodes(spec, w, i);
    }
    var p := seq(|w|, i requires 0 <= i < |w| => Position(ids, w[i]));
    forall k | 0 <= k < |p| - 1 ensures (p[k], p[k + 1]) in Adj(spec) {
      assert Linked(spec, w[k + 1 - 1], w[k + 1]);
      LinkIsPair(spec, w[k], w[k + 1]);
    }
    assert IsPath(Adj(spec), p) && Joins(p, p[0], p[|p| - 1]);
  }

  /** A walk goes on along any path from its end, getting longer. */
  lemma WalkGoesOn(spec: GraphSpec, w: seq<string>, x: nat, y: nat) returns (longer: seq<string>)
    requires EntryWalk(spec, w) && x < |spec.nodes| && Ids(spec.nodes)[x] == w[|w| - 1] && Reaches(Adj(spec), x, y)
    ensures EntryWalk(spec, longer) && |longer| > |w| && y < |spec.nodes| && longer[|longer| - 1] == Ids(spec.nodes)[y]
  {
    hide Adj;
    var p :| IsPath(Adj(spec), p) && Joins(p, x, y);
    longer := w;
    for k := 1 to |p|
      invariant EntryWalk(spec, longer) && |longer| == |w| + k - 1
      invariant p[k - 1] < |spec.nodes| && longer[|longer| - 1] == Ids(spec.nodes)[p[k - 1]]
    {
      assert (p[k - 1], p[k - 1 + 1]) in Adj(spec);
      PairIsLink(spec, p[k - 1], p[k]);
      longer := longer + [Ids(spec.nodes)[p[k]]];
    }
  }

  lemma SameLevelUnordered(spec: GraphSpec, v: seq<string>, w: seq<string>)
    requires WellFormed(spec) && Levelled(spec)
    requires EntryWalk(spec, v) && EntryWalk(spec, w) && |v| == |w|
    ensures v[|v| - 1] in Ids(spec.nodes) && w[|w| - 1] in Ids(spec.nodes)
    ensures !Reaches(Adj(spec), Position(Ids(spec.nodes), v[|v| - 1]), Position(Ids(spec.nodes), w[|w| - 1]))
  {
    hide WellFormed, Adj;
    WalkNodes(spec, v, |v| - 1);
    WalkNodes(spec, w, |w| - 1);
    var ids := Ids(spec.nodes);
    var a, b := Position(ids, v[|v| - 1]), Position(ids, w[|w| - 1]);
    if Reaches(Adj(spec), a, b) {
      var longer := WalkGoesOn(spec, v, a, b);
    }
  }

  /** In an accepted levelled specification no two writers of a key without reducer share a level. */
  lemma AcceptedLevelsApart(spec: GraphSpec, key: string)
    requires WellFormed(spec) && !HasConflict(spec) && Levelled(spec) && key !in spec.reducers
    ensures !SharedLevel(spec, key)
  {
    hide WellFormed, HasConflict, Levelled;
    if SharedLevel(spec, key) {
      var v, w :| Parts(spec, v, w, key);
      PartsClash(spec, v, w, key);
    }
  }

  lemma PartsClash(spec: GraphSpec, v: seq<string>, w: seq<string>, key: string)
    requires WellFormed(spec) && Levelled(spec) && key !in spec.reducers && Parts(spec, v, w, key)
    ensures HasConflict(spec)
  {
    hide WellFormed, Adj, Declares, HasConflict, Reaches;
    SameLevelUnordered(spec, v, w);
    SameLevelUnordered(spec, w, v);
    WalkReaches(spec, v);
    WalkReaches(spec, w);
    assert EntryWalk(spec, [spec.entry]);
    WritersClash(spec, key, v[|v| - 1], w[|w| - 1]);
  }

  lemma DeclaresAt(spec: GraphSpec, id: string, key: string)
    requires WellFormed(spec) && Declares(spec, id, key)
    ensures id in Ids(spec.nodes) && Occurrences(WriteKeys(spec.nodes[Position(Ids(spec.nodes), id)]), key) >= 1
  {
    hide WriteKeys, Occurrences;
    var i :| 0 <= i < |spec.nodes| && spec.nodes[i].id == id && Occurrences(WriteKeys(spec.nodes[i]), key) >= 1;
    assert Ids(spec.nodes)[i] == id;
  }

  lemma WritersClash(spec: GraphSpec, key: string, a: string, b: string)
    requires WellFormed(spec) && key !in spec.reducers && a != b && Declares(spec, a, key) && Declares(spec, b, key)
    requires var ids := Ids(spec.nodes);
      && spec.entry in ids && a in ids && b in ids && a != spec.entry && b != spec.entry
      && Unordered(Adj(spec), Position(ids, a), Position(ids, b))
      && Reaches(Adj(spec), Position(ids, spec.entry), Position(ids, a))
      && Reaches(Adj(spec), Position(ids, spec.entry), Position(ids, b))
    ensures HasConflict(spec)
  {
    DeclaresAt(spec, a, key);
    DeclaresAt(spec, b, key);
    hide Adj, WriteKeys, Occurrences, Reaches, WellFormed, Declares;
    var ids := Ids(spec.nodes);
    var x, y, c := Position(ids, a), Position(ids, b), Position(ids, spec.entry);
    assert ids[x] == a && ids[y] == b && ids[c] == spec.entry;
    assert IsCommonAncestor(Adj(spec), c, x, y) && IsCommonAncestor(Adj(spec), c, y, x);
    assert ConflictOn(spec, key, if x < y then x else y, if x < y then y else x);
  }

  // ---- The merge ------------------------------------------------------------------------

  /** Nodes change only the keys they declare. */
  ghost predicate WritesAsDeclared(spec: GraphSpec, env: Env) {
    forall id, data :: id in env.graph.nodes && FamilyFrom(env, id, data, 0).FamilyOk? ==>
      forall key :: ChangedIn(data, FamilyFrom(env, id, data, 0).data, key) ==> Declares(spec, id, key)
  }

  lemma {:induction false} TwoChanges(snapshot: Data, forks: seq<Data>, key: string) returns (i: nat, j: nat)
    requires |ChangedValues(snapshot, forks, key)| >= 2
    ensures i < j < |forks| && ChangedIn(snapshot, forks[i], key) && ChangedIn(snapshot, forks[j], key)
    decreases |forks|
  {
    var n := |forks| - 1;
    if |ChangedValues(snapshot, forks[..n], key)| >= 2 {
      i, j := TwoChanges(snapshot, forks[..n], key);
    } else {
      i := OneChange(snapshot, forks[..n], key);
      j := n;
    }
  }

  lemma {:induction false} OneChange(snapshot: Data, forks: seq<Data>, key: string) returns (i: nat)
    requires ChangedValues(snapshot, forks, key) != []
    ensures i < |forks| && ChangedIn(snapshot, forks[i], key)
    decreases |forks|
  {
    i := |forks| - 1;
    if !ChangedIn(snapshot, forks[i], key) {
      i := OneChange(snapshot, forks[..i], key);
    }
  }

  lemma {:induction false} ChangedConcat(snapshot: Data, a: seq<Data>, b: seq<Data>, key: string)
    ensures ChangedValues(snapshot, a + b, key) == ChangedValues(snapshot, a, key) + ChangedValues(snapshot, b, key)
    decreases |b|
  {
    if b == [] {
      assert a + b == a;
    } else {
      var n := |b| - 1;
      assert (a + b)[..|a + b| - 1] == a + b[..n];
      ChangedConcat(snapshot, a, b[..n], key);
    }
  }

  /** Permuting the branches permutes the changed values. */
  lemma {:induction false} ChangedPermute(snapshot: Data, a: seq<Data>, b: seq<Data>, key: string)
    requires multiset(a) == multiset(b)
    ensures multiset(ChangedValues(snapshot, a, key)) == multiset(ChangedValues(snapshot, b, key))
    decreases |a|
  {
    hide ChangedValues;
    assert |multiset(a)| == |a| && |multiset(b)| == |b|;
    if a == [] {
      assert b == a;
    } else {
      var i := RemoveHead(a, b);
      var head, before, after := [a[0]], b[..i], b[i + 1..];
      ChangedPermute(snapshot, a[1..], before + after, key);
      ChangedConcat(snapshot, head, a[1..], key);
      ChangedConcat(snapshot, before, after, key);
      ChangedConcat(snapshot, before, head + after, key);
      ChangedConcat(snapshot, head, after, key);
      assert a == head + a[1..];
      assert b == before + (head + after);
    }
  }

  /** The fold of these values does not depend on their order. */
  ghost predicate FoldsAlike(r: Reducer, base: Json, values: seq<Json>) {
    forall other :: multiset(other) == multiset(values) ==> Fold(r, base, other) == Fold(r, base, values)
  }

  lemma CountersFoldAlike(float: real -> Option<real>, base: Json, values: seq<Json>)
    requires Precise(float) && Countable(base, values)
    ensures FoldsAlike(AddReducer(float), base, values)
  {
    hide Precise, Countable, Fold;
    forall other | multiset(other) == multiset(values)
      ensures Fold(AddReducer(float), base, other) == Fold(AddReducer(float), base, values)
    {
      AddFoldPermutation(float, base, values, other);
    }
  }

  /** Every key is changed by one branch at most, or has a reducer that folds its changes alike in any order. */
  ghost predicate Unambiguous(reducers: map<string, Reducer>, snapshot: Data, forks: seq<Data>) {
    forall key :: var values := ChangedValues(snapshot, forks, key);
      |values| >= 2 ==> key in reducers && FoldsAlike(reducers[key], Base(snapshot, key), values)
  }

  lemma SameFold(reducers: map<string, Reducer>, snapshot: Data, forks: seq<Data>, other: seq<Data>, key: string)
    requires multiset(forks) == multiset(other) && Unambiguous(reducers, snapshot, forks)
    ensures var a, b := ChangedValues(snapshot, forks, key), ChangedValues(snapshot, other, key);
      && (a == [] <==> b == []) && FoldKey(reducers, snapshot, b, key) == FoldKey(reducers, snapshot, a, key)
  {
    hide ChangedValues, Fold;
    ChangedPermute(snapshot, forks, other, key);
    var a, b := ChangedValues(snapshot, forks, key), ChangedValues(snapshot, other, key);
    assert |multiset(a)| == |a| && |multiset(b)| == |b|;
    if |a| == 0 {
      assert a == b;
    } else if |a| == 1 {
      assert a[0] in multiset(b);
      assert a == b;
    }
  }

  /** Then any order of the branches merges alike. */
  lemma MergeAnyOrder(l: Limits, reducers: map<string, Reducer>, snapshot: Data, forks: seq<Data>, other: seq<Data>)
    requires multiset(forks) == multiset(other) && Unambiguous(reducers, snapshot, forks)
    ensures Merge(l, reducers, snapshot, other) == Merge(l, reducers, snapshot, forks)
  {
    var c, d := Changes(snapshot, forks), Changes(snapshot, other);
    hide ChangedValues, FoldKey, Unambiguous;
    forall key ensures key in c <==> key in d {
      SameFold(reducers, snapshot, forks, other, key);
    }
    forall key | key in c ensures FoldKey(reducers, snapshot, d[key], key) == FoldKey(reducers, snapshot, c[key], key) {
      SameFold(reducers, snapshot, forks, other, key);
    }
    assert FoldedWrites(reducers, snapshot, d) == FoldedWrites(reducers, snapshot, c);
  }

  /** In a run of an accepted, levelled specification that follows the edges no superstep has two nodes that
    * declare the same key without a reducer. */
  lemma FollowingNoRace(spec: GraphSpec, env: Env, start: Point, n: nat, key: string)
    requires WellFormed(spec) && !HasConflict(spec) && Levelled(spec) && FollowsEdges(spec, env, start)
    requires After(env, start, n).Some? && key !in spec.reducers
    ensures !RacesOn(spec, After(env, start, n).value.frontier, key)
  {
    hide WellFormed, HasConflict, Levelled, FollowsEdges, After, RacesOn, SharedLevel;
    AcceptedLevelsApart(spec, key);
    if RacesOn(spec, After(env, start, n).value.frontier, key) {
      RaceNeedsSharedLevel(spec, env, start, n, key);
    }
  }

  /** A run of a compiled specification whose nodes navigate within the edges. */
  ghost predicate CompiledRun(spec: GraphSpec, env: Env, start: Point) {
    && WellFormed(spec) && Compiled(spec, env.graph) && NavigatesWithin(spec, env)
    && start.frontier == StartList(spec)
  }

  /** Main result. In such a run of an accepted, levelled specification without a node named like the virtual
    * start node no superstep has two nodes that declare the same key without a reducer. */
  lemma RaceFreedom(spec: GraphSpec, env: Env, start: Point, n: nat, key: string)
    requires CompiledRun(spec, env, start) && After(env, start, n).Some?
    requires !HasConflict(spec) && Levelled(spec) && START !in Ids(spec.nodes) && key !in spec.reducers
    ensures !RacesOn(spec, After(env, start, n).value.frontier, key)
  {
    hide WellFormed, HasConflict, Levelled, After, RacesOn, Compiled, NavigatesWithin, StartList, FollowsEdges;
    WithinFollowsEdges(spec, env, start);
    FollowingNoRace(spec, env, start, n, key);
  }

  /** A key no two nodes of the frontier declare is changed by one branch at most. */
  lemma OneWriter(spec: GraphSpec, env: Env, data: Data, frontier: seq<string>, key: string)
    requires WritesAsDeclared(spec, env) && NoDup(frontier) && AllSucceed(env, data, frontier)
    requires !RacesOn(spec, frontier, key)
    ensures |ChangedValues(data, Forks(BranchResults(env, data, frontier)), key)| <= 1
  {
    hide FamilyFrom, ChangedValues, Declares, RacesOn;
    var forks := Forks(BranchResults(env, data, frontier));
    if |ChangedValues(data, forks, key)| >= 2 {
      var i, j := TwoChanges(data, forks, key);
      assert forks[i] == FamilyFrom(env, frontier[i], data, 0).data;
      assert forks[j] == FamilyFrom(env, frontier[j], data, 0).data;
      TwoDeclare(spec, frontier, key, frontier[i], frontier[j]);
    }
  }

  lemma TwoDeclare(spec: GraphSpec, frontier: seq<string>, key: string, a: string, b: string)
    requires a in frontier && b in frontier && a != b && Declares(spec, a, key) && Declares(spec, b, key)
    ensures RacesOn(spec, frontier, key)
  {
  }

  /** The keys with a reducer fold what the branches changed alike in any order, and no two nodes of the
    * frontier declare another key. */
  ghost predicate Settles(spec: GraphSpec, env: Env, data: Data, frontier: seq<string>)
    requires AllSucceed(env, data, frontier)
  {
    var forks := Forks(BranchResults(env, data, frontier));
    && (forall key :: key in spec.reducers ==>
          FoldsAlike(spec.reducers[key], Base(data, key), ChangedValues(data, forks, key)))
    && (forall key :: key !in spec.reducers ==> !RacesOn(spec, frontier, key))
  }

  /** Then any order of the branches merges into the same state. */
  lemma SettledMergesAnyOrder(spec: GraphSpec, env: Env, data: Data, frontier: seq<string>, forks: seq<Data>)
    requires WritesAsDeclared(spec, env) && env.reducers == spec.reducers && NoDup(frontier)
    requires AllSucceed(env, data, frontier) && Settles(spec, env, data, frontier)
    requires multiset(forks) == multiset(Forks(BranchResults(env, data, frontier)))
    ensures Merge(env.limits, env.reducers, data, forks) ==
      Merge(env.limits, env.reducers, data, Forks(BranchResults(env, data, frontier)))
  {
    hide FamilyFrom, WritesAsDeclared, Merge, ChangedValues, FoldsAlike, AllSucceed, RacesOn;
    var inOrder := Forks(BranchResults(env, data, frontier));
    forall key | |ChangedValues(data, inOrder, key)| >= 2
      ensures key in env.reducers && FoldsAlike(env.reducers[key], Base(data, key), ChangedValues(data, inOrder, key))
    {
      if key !in spec.reducers {
        OneWriter(spec, env, data, frontier, key);
      }
    }
    MergeAnyOrder(env.limits, env.reducers, data, inOrder, forks);
  }

  /** Main result. So in every superstep of such a run any order of the branches merges into the same state,
    * if its reducers fold what the branches changed alike in any order. */
  lemma AcceptedMergesAnyOrder(spec: GraphSpec, env: Env, start: Point, n: nat, forks: seq<Data>)
    requires CompiledRun(spec, env, start) && After(env, start, n).Some?
    requires !HasConflict(spec) && Levelled(spec) && START !in Ids(spec.nodes)
    requires WritesAsDeclared(spec, env) && env.reducers == spec.reducers
    requires var p := After(env, start, n).value;
      && AllSucceed(env, p.data, p.frontier)
      && multiset(forks) == multiset(Forks(BranchResults(env, p.data, p.frontier)))
      && forall key :: key in spec.reducers ==>
           FoldsAlike(spec.reducers[key], Base(p.data, key), ChangedValues(p.data, Forks(BranchResults(env, p.data, p.frontier)), key))
    ensures var p := After(env, start, n).value;
      Merge(env.limits, env.reducers, p.data, forks) ==
        Merge(env.limits, env.reducers, p.data, Forks(BranchResults(env, p.data, p.frontier)))
  {
    hide CompiledRun, HasConflict, Levelled, After, FamilyFrom, WritesAsDeclared, Merge, ChangedValues, FoldsAlike,
      AllSucceed, RacesOn;
    var p := After(env, start, n).value;
    FrontierOnce(spec, env, start, n);
    forall key | key !in spec.reducers ensures !RacesOn(spec, p.frontier, key) {
      RaceFreedom(spec, env, start, n, key);
    }
    SettledMergesAnyOrder(spec, env, p.data, p.frontier, forks);
  }

  lemma FrontierOnce(spec: GraphSpec, env: Env, start: Point, n: nat)
    requires CompiledRun(spec, env, start) && START !in Ids(spec.nodes) && After(env, start, n).Some?
    ensures NoDup(After(env, start, n).value.frontier)
  {
    hide WellFormed, After, Compiled, NavigatesWithin, StartList;
    AfterNone(env, start);
    if n == 0 {
      EntryIsNode(spec);
      StartListExact(spec);
    } else {
      FrontierNoDup(env, start, n);
    }
  }

  function Writer(id: string): NodeSpec {
    NodeSpec(id, Llm, false, Obj(map["output_key" := Str("k")]))
  }

  /** An entry with an edge to `a` and to `b`, and an edge from `a` to `b`. */
  function Shortcut(): GraphSpec {
    GraphSpec("g", "e", [NodeSpec("e", Passthrough, false, Null), Writer("a"), Writer("b")],
              [EdgeSpec("e", "a"), EdgeSpec("e", "b"), EdgeSpec("a", "b")], None, None, map[])
  }

  lemma ShortcutIds()
    ensures Ids(Shortcut().nodes) == ["e", "a", "b"] && WellFormed(Shortcut())
  {
    var nodes, edges := Shortcut().nodes, Shortcut().edges;
    var ids := Ids(nodes);
    assert ids[0] == "e" && ids[1] == "a" && ids[2] == "b";
    assert edges[0] == EdgeSpec("e", "a") && edges[1] == EdgeSpec("e", "b") && edges[2] == EdgeSpec("a", "b");
    assert "e" in ids && "a" in ids && "b" in ids;
    assert EndpointsOk(nodes, edges[0]) && EndpointsOk(nodes, edges[1]) && EndpointsOk(nodes, edges[2]);
  }

  lemma ShortcutWrites()
    ensures var nodes := Shortcut().nodes;
      WriteKeys(nodes[0]) == [] && WriteKeys(nodes[1]) == ["k"] && WriteKeys(nodes[2]) == ["k"]
    ensures Declares(Shortcut(), "a", "k") && Declares(Shortcut(), "b", "k")
  {
    SingleWrite(Writer("a"), "k");
    SingleWrite(Writer("b"), "k");
    assert Shortcut().nodes[1] == Writer("a") && Shortcut().nodes[2] == Writer("b");
  }

  /** Without the levels the check does not suffice: here `b` follows `a`, so the two are ordered and
    * the specification is accepted, but both also follow the entry directly and share a level. */
  lemma OrderedNodesShareLevel()
    ensures WellFormed(Shortcut()) && !HasConflict(Shortcut()) && "k" !in Shortcut().reducers
    ensures SharedLevel(Shortcut(), "k")
  {
    var spec := Shortcut();
    ShortcutIds();
    ShortcutWrites();
    hide WellFormed, WriteKeys, Declares, HasConflict, Adj;
    assert spec.edges[0] == EdgeSpec("e", "a") && spec.edges[1] == EdgeSpec("e", "b") && spec.edges[2] == EdgeSpec("a", "b");
    assert Linked(spec, "e", "a") && Linked(spec, "e", "b") && Linked(spec, "a", "b");
    assert Parts(spec, ["e", "a"], ["e", "b"], "k");
    LinkIsPair(spec, "a", "b");
    EdgeReaches(Adj(spec), 1, 2);
    OrderedPairOnly(spec);
  }

  lemma OrderedPairOnly(spec: GraphSpec)
    requires |spec.nodes| == 3 && WriteKeys(spec.nodes[0]) == [] && Reaches(Adj(spec), 1, 2)
    requires |WriteKeys(spec.nodes[1])| <= 1 && |WriteKeys(spec.nodes[2])| <= 1
    ensures !HasConflict(spec)
  {
    hide WriteKeys, Reaches, Adj;
    forall key: string, a: nat, b: nat ensures !ConflictOn(spec, key, a, b) {
      if WritePair(spec.nodes, key, a, b) {
        SingleWrite(spec.nodes[a], key);
      }
    }
  }

  lemma SingleWrite(node: NodeSpec, key: string)
    requires |WriteKeys(node)| <= 1
    ensures Occurrences(WriteKeys(node), key) == if WriteKeys(node) == [key] then 1 else 0
  {
    hide WriteKeys;
    var keys := WriteKeys(node);
    if |keys| == 1 {
      assert keys == [keys[0]];
      assert Occurrences([], key) == 0;
      assert keys[..0] == [];
    }
  }

  // ---- A run of that specification in which the order decides ------------------------------------

  /** What the two writers store. */
  function TwoValues(): map<string, Data> {
    map["a" := map["k" := Num(1.0)], "b" := map["k" := Num(2.0)]]
  }

  lemma ShortcutSuccessors()
    ensures Succ(Shortcut().edges, "e") == ["a", "b"]
  {
    var edges := Shortcut().edges;
    var one, two := [EdgeSpec("e", "a")], [EdgeSpec("e", "a"), EdgeSpec("e", "b")];
    assert edges[..2] == two && two[..1] == one && one[..0] == [];
    assert Succ(one, "e") == ["a"] && Succ(two, "e") == ["a", "b"];
  }

  lemma ShortcutTargets()
    ensures DropEnd(Dedup(CompiledTargets(Shortcut(), "e"))) == ["a", "b"]
  {
    hide Succ, DropEnd, Dedup;
    ShortcutSuccessors();
    assert Targets(["a", "b"]) == ["a", "b"];
    assert CompiledTargets(Shortcut(), "e") == ["a", "b"];
    KeepTwo();
  }

  lemma KeepTwo()
    ensures DropEnd(Dedup(["a", "b"])) == ["a", "b"]
  {
    assert ["a", "b"][..1] == ["a"] && ["a"][..0] == [];
    assert Dedup([]) == [] && Dedup(["a"]) == ["a"] && DropEnd([]) == [] && DropEnd(["a"]) == ["a"];
  }

  lemma TwoNewValues(x: Json, y: Json)
    ensures Changes(map[], [map["k" := x], map["k" := y]]) == map["k" := [x, y]]
  {
    var empty: Data, one: Data, two: Data := map[], map["k" := x], map["k" := y];
    assert [one, two][..1] == [one] && [one][..0] == [];
    forall key ensures ChangedValues(empty, [one, two], key) == if key == "k" then [x, y] else [] {
      assert ChangedValues(empty, [], key) == [];
      assert ChangedValues(empty, [one], key) == if key == "k" then [x] else [];
    }
    assert ChangedKeys(empty, [one, two]) == {"k"};
  }

  /** The last of two new values is kept. */
  lemma LastOfTwo(l: Limits, x: Json, y: Json)
    requires SizeOk(l, y) && l.maxKeys >= 1
    ensures Merge(l, map[], map[], [map["k" := x], map["k" := y]]) == Some(map["k" := y])
  {
    hide ChangedValues, ChangedKeys, Changes, FoldKey;
    TwoNewValues(x, y);
    var empty: Data, changes := map[], map["k" := [x, y]];
    LastWriteKey(map[], empty, [x, y], "k");
    assert FoldKey(map[], empty, changes["k"], "k") == Ok(y);
    var writes := FoldedWrites(map[], empty, changes);
    assert writes == map["k" := y] && empty + writes == writes;
    assert empty.Keys + writes.Keys == {"k"};
  }

  /** The two writers run in the second superstep, and the merge keeps the value of the one that comes last
    * in the list of branches. */
  lemma ShortcutRaces(limits: Limits)
    requires limits.maxKeys >= 1 && SizeOk(limits, Num(1.0)) && SizeOk(limits, Num(2.0))
    ensures var env := SettingEnv(Shortcut(), limits, TwoValues());
      var a: Data, b: Data := map["k" := Num(1.0)], map["k" := Num(2.0)];
      && Compiled(Shortcut(), env.graph) && NavigatesByEdges(env)
      && After(env, Point(map[], ["e"]), 1) == Some(Point(map[], ["a", "b"]))
      && AllSucceed(env, map[], ["a", "b"]) && Forks(BranchResults(env, map[], ["a", "b"])) == [a, b]
      && Merge(limits, env.reducers, map[], [a, b]) == Some(b) && Merge(limits, env.reducers, map[], [b, a]) == Some(a)
  {
    ShortcutIds();
    hide WellFormed, Merge;
    ShortcutFirst(limits);
    ShortcutSecond(limits);
    SettingFits(Shortcut(), limits, TwoValues());
    LastOfTwo(limits, Num(1.0), Num(2.0));
    LastOfTwo(limits, Num(2.0), Num(1.0));
  }

  lemma ShortcutFirst(limits: Limits)
    ensures After(SettingEnv(Shortcut(), limits, TwoValues()), Point(map[], ["e"]), 1) == Some(Point(map[], ["a", "b"]))
  {
    ShortcutIds();
    ShortcutTargets();
    assert Ids(Shortcut().nodes)[0] == "e";
    hide WellFormed, Shortcut, CompiledTargets, SettingEnv, Continue, DropEnd, Dedup;
    SettingContinue(Shortcut(), limits, TwoValues(), "e", map[]);
    var env, start := SettingEnv(Shortcut(), limits, TwoValues()), Point(map[], ["e"]);
    AfterNone(env, start);
    assert After(env, start, 1) == Continue(env, start);
  }

  lemma ShortcutSettled()
    ensures Settled(TwoValues(), "a", map[]) == map["k" := Num(1.0)]
    ensures Settled(TwoValues(), "b", map[]) == map["k" := Num(2.0)]
  {
  }

  lemma ShortcutSecond(limits: Limits)
    ensures var env := SettingEnv(Shortcut(), limits, TwoValues());
      && AllSucceed(env, map[], ["a", "b"])
      && Forks(BranchResults(env, map[], ["a", "b"])) == [map["k" := Num(1.0)], map["k" := Num(2.0)]]
  {
    hide WellFormed, Shortcut, SettingEnv, FamilyFrom, Settled, TwoValues;
    ShortcutIds();
    assert Ids(Shortcut().nodes)[1] == "a" && Ids(Shortcut().nodes)[2] == "b";
    ShortcutSettled();
    SettingFamily(Shortcut(), limits, TwoValues(), "a", map[]);
    SettingFamily(Shortcut(), limits, TwoValues(), "b", map[]);
  }

  /** Its nodes write what they declare, so only the levels are missing. */
  lemma ShortcutWritesAsDeclared(limits: Limits)
    ensures WritesAsDeclared(Shortcut(), SettingEnv(Shortcut(), limits, TwoValues()))
  {
    hide WellFormed, Shortcut, FamilyFrom, Declares, SettingEnv;
    ShortcutWrites();
    var env := SettingEnv(Shortcut(), limits, TwoValues());
    forall id, data | id in env.graph.nodes && FamilyFrom(env, id, data, 0).FamilyOk?
      ensures forall key :: ChangedIn(data, FamilyFrom(env, id, data, 0).data, key) ==> Declares(Shortcut(), id, key)
    {
      SettingNodes(Shortcut(), limits, TwoValues(), id);
      SettingFamily(Shortcut(), limits, TwoValues(), id, data);
    }
  }

  lemma SettingNodes(spec: GraphSpec, limits: Limits, values: map<string, Data>, id: string)
    requires id in SettingEnv(spec, limits, values).graph.nodes
    ensures id in Ids(spec.nodes)
  {
  }
}

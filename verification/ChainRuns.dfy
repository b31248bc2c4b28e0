/** Runs of resumable chains. */
module ChainRuns {
  import opened Values
  import opened AgentStates
  import opened Graphs
  import opened Sorting
  import opened Iteration
  import opened EngineSpec
  import opened GraphSpecs
  import opened Chains
  import opened Compiling
  import opened Following
  import opened Races

  ghost predicate ChainGraph(spec: GraphSpec, env: Env, c: seq<string>) {
    WellFormed(spec) && IsChain(spec, c) && Compiled(spec, env.graph) && NavigatesByEdges(env)
  }

  /** The number of nodes before the first that is called like the end of a graph. */
  function FirstEnd(c: seq<string>): (n: nat)
    ensures n <= |c| && END !in c[..n] && (n < |c| ==> c[n] == END)
  {
    if c == [] || c[0] == END then 0
    else
      var n := 1 + FirstEnd(c[1..]);
      assert c[..n] == [c[0]] + c[1..][..n - 1];
      n
  }

  /** A node called like the virtual start node comes before any called like the end. */
  predicate StartBeforeEnd(c: seq<string>) {
    START in c[..FirstEnd(c)]
  }

  /** The state after the first `i` nodes of the chain, each run on the state of the one before, as
    * long as they succeed. */
  function ChainData(env: Env, c: seq<string>, data: Data, i: nat): Option<Data>
    requires i <= |c| && forall id :: id in c ==> id in env.graph.nodes
  {
    if i == 0 then Some(data)
    else
      match ChainData(env, c, data, i - 1)
      case None => None
      case Some(d) =>
        match FamilyFrom(env, c[i - 1], d, 0)
        case FamilyOk(next, _) => Some(next)
        case _ => None
  }

  lemma ChainNodes(spec: GraphSpec, env: Env, c: seq<string>)
    requires ChainGraph(spec, env, c)
    ensures forall id :: id in c ==> id in env.graph.nodes
    ensures c != [] && c[0] == spec.entry
  {
    hide WellFormed, NavigatesByEdges;
  }

  /** The frontier a chain target leads to. */
  function Frontier(target: string): seq<string> {
    if target == END then [] else [target]
  }

  lemma OneTarget(target: string)
    ensures DropEnd(Dedup([target])) == DropEnd([target]) == Frontier(target)
  {
    assert [target][..0] == [];
    assert Dedup([]) == [] && DropEnd([]) == [];
    assert Dedup([target]) == [target];
  }

  /** A chain node that succeeds leads to the next one, unless it also leads back to the entry. */
  lemma ChainStep(spec: GraphSpec, env: Env, c: seq<string>, i: nat, data: Data)
    requires ChainGraph(spec, env, c) && i < |c| && c[i] in env.graph.nodes && c[i] != START
    ensures Continue(env, Point(data, [c[i]])) ==
      match FamilyFrom(env, c[i], data, 0)
      case FamilyOk(next, _) => Some(Point(next, Frontier(TargetOf(NextOf(c, i)))))
      case _ => None
  {
    hide WellFormed, NavigatesByEdges, FamilyFrom, Dedup, DropEnd, IsChain, Superstep, EdgeTargets, Continue;
    var target := TargetOf(NextOf(c, i));
    if FamilyFrom(env, c[i], data, 0).FamilyOk? {
      ChainTargets(spec, env, c, i, FamilyFrom(env, c[i], data, 0).data);
    }
    OneStep(env, data, c[i], [target]);
    OneTarget(target);
  }

  lemma ChainTargets(spec: GraphSpec, env: Env, c: seq<string>, i: nat, data: Data)
    requires ChainGraph(spec, env, c) && i < |c| && c[i] != START
    ensures EdgeTargets(env.graph, data, c[i]) == Ok([TargetOf(NextOf(c, i))])
  {
    hide WellFormed, NavigatesByEdges, Succ, EdgeTargets;
    EdgeTargetsExact(spec, env.graph, data, c[i]);
    ChainSucc(spec, c, i);
    assert CompiledTargets(spec, c[i]) == [TargetOf(NextOf(c, i))];
  }

  /** The frontier that holds the chain node with number `i`; past the last one it is empty. */
  function NodeAt(c: seq<string>, i: nat): seq<string> {
    if i < |c| then Frontier(c[i]) else []
  }

  lemma NextAt(c: seq<string>, i: nat)
    requires i < |c| && "END" !in c[i + 1..]
    ensures Frontier(TargetOf(NextOf(c, i))) == NodeAt(c, i + 1)
  {
    if i + 1 < |c| {
      assert c[i + 1] == c[i + 1..][0];
    }
  }

  lemma LaterNotEnd(spec: GraphSpec, c: seq<string>, i: nat)
    requires IsChain(spec, c) && i < |c|
    ensures "END" !in c[i + 1..]
  {
  }

  /** The point a chain is at after `i` supersteps, as long as no earlier node bears a reserved name. */
  lemma {:induction false} ChainPoint(spec: GraphSpec, env: Env, c: seq<string>, data: Data, i: nat)
    requires ChainGraph(spec, env, c) && i <= FirstEnd(c) && !StartBeforeEnd(c)
    requires forall id :: id in c ==> id in env.graph.nodes
    ensures After(env, Point(data, NodeAt(c, 0)), i) ==
      match ChainData(env, c, data, i)
      case Some(d) => Some(Point(d, NodeAt(c, i)))
      case None => None
  {
    hide ChainGraph, Continue, FamilyFrom, FirstEnd;
    if i > 0 {
      ChainPoint(spec, env, c, data, i - 1);
      var before := c[..FirstEnd(c)];
      assert before[i - 1] == c[i - 1] && END !in before && START !in before;
      if ChainData(env, c, data, i - 1).Some? {
        ChainStep(spec, env, c, i - 1, ChainData(env, c, data, i - 1).value);
        ChainOf(spec, env, c);
        LaterNotEnd(spec, c, i - 1);
        NextAt(c, i - 1);
      }
    }
  }

  lemma ChainOf(spec: GraphSpec, env: Env, c: seq<string>)
    requires ChainGraph(spec, env, c)
    ensures IsChain(spec, c)
  {
  }

  /** Every entry walk goes along the chain, so a chain is levelled and no two of its nodes share a level.
    * (They may still share a superstep, if a node leads back to the entry.) */
  lemma {:induction false} EntryWalkAlongChain(spec: GraphSpec, c: seq<string>, w: seq<string>, i: nat)
    requires IsChain(spec, c) && EntryWalk(spec, w) && i < |w|
    ensures i < |c| && w[i] == c[i]
  {
    if i > 0 {
      EntryWalkAlongChain(spec, c, w, i - 1);
      assert Linked(spec, w[i - 1], w[i]);
      ChainSucc(spec, c, i - 1);
      SuccMember(spec.edges, c[i - 1], w[i]);
    }
  }

  lemma ChainLevelled(spec: GraphSpec, c: seq<string>)
    requires IsChain(spec, c)
    ensures Levelled(spec) && forall key :: !SharedLevel(spec, key)
  {
    forall v, w | EntryWalk(spec, v) && EntryWalk(spec, w) ensures v[|v| - 1] == w[|w| - 1] <==> |v| == |w| {
      EntryWalkAlongChain(spec, c, v, |v| - 1);
      EntryWalkAlongChain(spec, c, w, |w| - 1);
    }
    forall key, v, w ensures !Parts(spec, v, w, key) {
      if EntryWalk(spec, v) && EntryWalk(spec, w) {
        assert v[|v| - 1] == w[|w| - 1] <==> |v| == |w|;
      }
    }
  }

  lemma ChainStart(spec: GraphSpec, env: Env, c: seq<string>, data: Data, start: Point)
    requires ChainGraph(spec, env, c) && !StartBeforeEnd(c) && StartsAt(env, data, spec.entry, start)
    ensures start == Point(data, NodeAt(c, 0))
  {
    assert FirstEnd(c) > 0 ==> c[..FirstEnd(c)][0] == c[0];
    OneTarget(spec.entry);
  }

  /** If no node called like the virtual start node comes first, a chain visits its nodes once and in order
    * up to the first that is called like the end, and is finished after exactly as many supersteps if they
    * all succeed. */
  lemma ChainRun(spec: GraphSpec, env: Env, c: seq<string>, data: Data, start: Point, n: nat)
    requires ChainGraph(spec, env, c) && !StartBeforeEnd(c)
    requires forall id :: id in c ==> id in env.graph.nodes
    requires StartsAt(env, data, spec.entry, start)
    ensures Finished(env, start, n) <==> n == FirstEnd(c) && ChainData(env, c, data, n).Some?
    ensures Finished(env, start, n) ==> Some(After(env, start, n).value.data) == ChainData(env, c, data, FirstEnd(c))
    ensures n < FirstEnd(c) && After(env, start, n).Some? ==> After(env, start, n).value.frontier == [c[n]]
    ensures n > FirstEnd(c) ==> After(env, start, n) == None
    ensures n <= FirstEnd(c) ==> (After(env, start, n) == None <==> ChainData(env, c, data, n) == None)
  {
    ChainStart(spec, env, c, data, start);
    hide ChainGraph, After, ChainData, StartsAt, StartBeforeEnd;
    if n <= FirstEnd(c) {
      ChainPoint(spec, env, c, data, n);
      if n < FirstEnd(c) {
        assert c[..FirstEnd(c)][n] == c[n];
      }
    } else {
      ChainPoint(spec, env, c, data, FirstEnd(c));
      NothingAfter(env, start, FirstEnd(c), n);
    }
  }

  lemma NothingAfter(env: Env, start: Point, m: nat, n: nat)
    requires m < n && (After(env, start, m).None? || After(env, start, m).value.frontier == [])
    ensures After(env, start, n) == None
  {
    if After(env, start, n).Some? {
      IterateEarlier(Stepper(env), start, m, n);
    }
  }

  // ---- Chains through a node called like the virtual start node -------------------------------

  lemma ChainEdge(spec: GraphSpec, c: seq<string>, i: nat)
    requires IsChain(spec, c) && i + 1 < |c|
    ensures EdgeSpec(c[i], c[i + 1]) in spec.edges && c[i + 1] != "END"
  {
    assert Links(c)[i] == EdgeSpec(c[i], c[i + 1]);
    assert Links(c)[i] in Links(c);
  }

  /** What a chain node up to that one leads to: the next node, and in the end the entry again. */
  lemma NextKept(spec: GraphSpec, c: seq<string>, frontier: seq<string>, s: nat, i: nat) returns (j: nat)
    requires IsChain(spec, c) && s < FirstEnd(c) && c[s] == START && i <= s && c[i] in frontier
    ensures j <= s && c[j] != END && Follows(spec, frontier, c[j])
  {
    j := if i == s then 0 else i + 1;
    assert c[..FirstEnd(c)][j] == c[j];
    if i < s {
      ChainEdge(spec, c, i);
    }
  }

  /** So every frontier holds one of them. */
  lemma {:induction false} SomeNodeLeft(spec: GraphSpec, env: Env, c: seq<string>, start: Point, s: nat, n: nat)
    returns (j: nat)
    requires ChainGraph(spec, env, c) && s < FirstEnd(c) && c[s] == START
    requires start.frontier == StartList(spec) && After(env, start, n).Some?
    ensures j <= s && c[j] in After(env, start, n).value.frontier
  {
    hide IsChain, WellFormed, Compiled, NavigatesByEdges, After, StartList, Follows;
    AfterNone(env, start);
    RunIsExact(spec, env, start, n);
    if n == 0 {
      j := 0;
      assert c[..FirstEnd(c)][0] == c[0];
      ChainNodes(spec, env, c);
      StartListExact(spec);
    } else {
      var i := SomeNodeLeft(spec, env, c, start, s, n - 1);
      j := NextKept(spec, c, After(env, start, n - 1).value.frontier, s, i);
    }
  }

  lemma NeverFinishes(spec: GraphSpec, env: Env, c: seq<string>, data: Data, start: Point, n: nat)
    requires ChainGraph(spec, env, c) && StartBeforeEnd(c) && StartsAt(env, data, spec.entry, start)
    ensures !Finished(env, start, n)
  {
    hide IsChain, WellFormed, Compiled, NavigatesByEdges, After, StartList, FirstEnd, StartsAt;
    StartIsList(spec, env, data, start);
    var s :| 0 <= s < FirstEnd(c) && c[..FirstEnd(c)][s] == START;
    if Finished(env, start, n) {
      var j := SomeNodeLeft(spec, env, c, start, s, n);
    }
  }

  /** Main result. Whatever its names, a chain finishes exactly if no node called like the virtual start
    * node comes before the first called like the end, and the nodes before that succeed. */
  lemma ChainFinishes(spec: GraphSpec, env: Env, c: seq<string>, data: Data, start: Point)
    requires ChainGraph(spec, env, c) && StartsAt(env, data, spec.entry, start)
    requires forall id :: id in c ==> id in env.graph.nodes
    ensures (exists n :: Finished(env, start, n)) <==> !StartBeforeEnd(c) && ChainData(env, c, data, FirstEnd(c)).Some?
  {
    hide ChainGraph, Finished, StartBeforeEnd, ChainData, FirstEnd, StartsAt;
    if StartBeforeEnd(c) {
      forall n: nat ensures !Finished(env, start, n) {
        NeverFinishes(spec, env, c, data, start, n);
      }
    } else {
      forall n: nat ensures Finished(env, start, n) <==> n == FirstEnd(c) && ChainData(env, c, data, n).Some? {
        ChainRun(spec, env, c, data, start, n);
      }
    }
  }

  // ---- Two eligible chains with reserved names ------------------------------------------------

  /** The chain from `e` through one more node. */
  function Through(id: string): GraphSpec {
    GraphSpec("g", "e", [Idle("e"), Idle(id)], [EdgeSpec("e", id), EdgeSpec(id, "END")], None, None, map[])
  }

  lemma ThroughIsChain(id: string)
    requires ValidId(id) && id != "e" && id != "END"
    ensures WellFormed(Through(id)) && AllAdmissible(Through(id)) && IsChain(Through(id), ["e", id])
  {
    var spec, c := Through(id), ["e", id];
    var ids := Ids(spec.nodes);
    assert ids[0] == "e" && ids[1] == id && c[0] == "e" && c[1] == id;
    assert spec.edges[0] == EdgeSpec("e", id) && spec.edges[1] == EdgeSpec(id, "END");
    assert EndpointsOk(spec.nodes, spec.edges[0]) && EndpointsOk(spec.nodes, spec.edges[1]);
    assert Links(c) == spec.edges;
  }

  /** The eligible chain through a node called like the virtual start node never finishes. */
  lemma ThroughStartLoops(env: Env, data: Data, start: Point, n: nat)
    requires Compiled(Through(START), env.graph) && NavigatesByEdges(env) && StartsAt(env, data, "e", start)
    ensures WellFormed(Through(START)) && AllAdmissible(Through(START)) && IsChain(Through(START), ["e", START])
    ensures !Finished(env, start, n)
  {
    ThroughIsChain(START);
    hide IsChain, AllAdmissible, WellFormed, Compiled, NavigatesByEdges, Finished, StartsAt;
    var c := ["e", START];
    ThroughFirst(c[1..]);
    assert c[1] == START && c[..FirstEnd(c)] == c;
    NeverFinishes(Through(START), env, c, data, start, n);
  }

  lemma ThroughFirst(c: seq<string>)
    requires |c| == 1
    ensures FirstEnd(c) == if c[0] == END then 0 else 1
  {
    assert FirstEnd(c[1..]) == 0;
  }

  lemma ThroughIds(id: string)
    ensures "e" in Ids(Through(id).nodes) && id in Ids(Through(id).nodes)
  {
    assert Ids(Through(id).nodes)[0] == "e" && Ids(Through(id).nodes)[1] == id;
  }

  /** A superstep of one of its nodes, if that stores nothing. */
  lemma ThroughStep(id: string, limits: Limits, values: map<string, Data>, data: Data)
    requires ValidId(id) && id != "e" && id != "END"
    ensures var env := SettingEnv(Through(id), limits, values);
      && ("e" !in values ==> Continue(env, Point(data, ["e"])) == Some(Point(data, if id == END then [] else [id])))
      && (id !in values ==> Continue(env, Point(data, [id])) == Some(Point(data, if id == START then ["e"] else [])))
  {
    hide WellFormed, IsChain, AllAdmissible, SettingEnv, Continue, CompiledTargets, Dedup, DropEnd, Through;
    ThroughIsChain(id);
    ThroughTargets(id);
    ThroughIds(id);
    SettingContinue(Through(id), limits, values, "e", data);
    SettingContinue(Through(id), limits, values, id, data);
    assert data + map[] == data;
  }

  /** Its two nodes take turns for ever. */
  lemma {:induction false} ThroughStartTurns(limits: Limits, data: Data, n: nat)
    ensures After(SettingEnv(Through(START), limits, map[]), Point(data, ["e"]), n) ==
      Some(Point(data, if n % 2 == 0 then ["e"] else [START]))
  {
    hide SettingEnv, Continue, Through;
    if n > 0 {
      ThroughStartTurns(limits, data, n - 1);
      ThroughStep(START, limits, map[], data);
    }
  }

  /** What the two nodes lead to. */
  lemma ThroughTargets(id: string)
    requires id != "e" && id != "END"
    ensures DropEnd(Dedup(CompiledTargets(Through(id), "e"))) == if id == END then [] else [id]
    ensures DropEnd(Dedup(CompiledTargets(Through(id), id))) == if id == START then ["e"] else []
  {
    var spec := Through(id);
    assert spec.edges[..1] == [EdgeSpec("e", id)] && [EdgeSpec("e", id)][..0] == [];
    assert Succ([EdgeSpec("e", id)], "e") == [id] && Succ([EdgeSpec("e", id)], id) == [];
    assert Succ(spec.edges, "e") == [id] && Succ(spec.edges, id) == ["END"];
    hide Succ;
    assert CompiledTargets(spec, "e") == [id];
    assert CompiledTargets(spec, id) == if id == START then ["e", END] else [END];
    OneTarget(id);
    OneTarget(END);
    TwoTargets("e");
  }

  lemma TwoTargets(id: string)
    requires id != END
    ensures DropEnd(Dedup([id, END])) == [id]
  {
    hide Dedup, DropEnd;
    OneTarget(id);
    DedupTwo(id, END);
    DropLast([id]);
    assert [id] + [END] == [id, END];
  }

  lemma DropLast(s: seq<string>)
    ensures DropEnd(s + [END]) == DropEnd(s)
  {
    assert (s + [END])[..|s|] == s;
  }

  lemma DedupTwo(a: string, b: string)
    requires a != b
    ensures Dedup([a, b]) == [a, b]
  {
    assert Dedup([]) == [] && [a][..0] == [];
    assert Dedup([a]) == [a];
    assert [a, b][..1] == [a];
  }

  /** And the one through a node called like the end of a graph finishes before that node runs. */
  lemma ThroughEndIsCutOff(limits: Limits, data: Data)
    ensures WellFormed(Through(END)) && AllAdmissible(Through(END)) && IsChain(Through(END), ["e", END])
    ensures var env := SettingEnv(Through(END), limits, map[END := map["k" := Null]]);
      Finished(env, Point(data, ["e"]), 1) && After(env, Point(data, ["e"]), 1) == Some(Point(data, []))
  {
    ThroughIsChain(END);
    var values := map[END := map["k" := Null]];
    assert "e" !in values;
    ThroughStep(END, limits, values, data);
    hide WellFormed, IsChain, AllAdmissible, SettingEnv, Continue, Through;
    var env, start := SettingEnv(Through(END), limits, values), Point(data, ["e"]);
    AfterNone(env, start);
    assert After(env, start, 1) == Continue(env, start);
  }
}

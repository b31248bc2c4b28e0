/** How tight the superstep limit is, and exactly when it fails to keep the node budget: the limit does
  * not know that nodes may bear the names of the virtual start node and of the end of a graph. */
module BudgetLimits {
  import opened Values
  import opened AgentStates
  import opened Graphs
  import opened Sorting
  import opened EngineSpec
  import opened GraphSpecs
  import opened Chains
  import opened Compiling
  import opened Following
  import opened Budgets
  import opened Frontiers

  // ---- The frontiers of a run that follows every edge -----------------------------------------

  /** How many they are; only the first frontier may name a node more than once. */
  function Width(spec: GraphSpec, k: nat): nat {
    if k == 0 then |StartList(spec)| else |Actual(spec, k)|
  }

  function Executed(spec: GraphSpec, k: nat): nat {
    if k == 0 then 0 else Executed(spec, k - 1) + Width(spec, k - 1)
  }

  lemma PossibleNextId(spec: GraphSpec, k: nat, id: string)
    ensures id in Possible(spec, k + 1) <==> Successor(spec.edges, Possible(spec, k), id)
  {
    PossibleTarget(spec.edges, Possible(spec, k), id);
    hide Successor;
  }

  lemma SameMembersSameLength(a: seq<string>, b: seq<string>)
    requires NoDup(a) && NoDup(b) && forall x :: x in a <==> x in b
    ensures |a| == |b|
  {
    NoDupSubset(a, b);
    NoDupSubset(b, a);
  }

  lemma FrontierWidth(spec: GraphSpec, env: Env, start: Point, k: nat)
    requires WellFormed(spec) && Compiled(spec, env.graph) && NavigatesByEdges(env)
    requires start.frontier == StartList(spec) && After(env, start, k).Some?
    ensures |After(env, start, k).value.frontier| == Width(spec, k)
  {
    hide Compiled, NavigatesByEdges, After, WellFormed, StartList, Actual;
    AfterNone(env, start);
    if k > 0 {
      FrontierActual(spec, env, start, k);
      FrontierNoDup(env, start, k);
      SameMembersSameLength(After(env, start, k).value.frontier, Actual(spec, k));
    }
  }

  /** So the nodes a run executes can be told from its specification, whatever its names. */
  lemma {:induction false} CountActual(spec: GraphSpec, env: Env, start: Point, n: nat)
    requires WellFormed(spec) && Compiled(spec, env.graph) && NavigatesByEdges(env)
    requires start.frontier == StartList(spec) && (n > 0 ==> After(env, start, n - 1).Some?)
    ensures NodeCount(env, start, n) == Executed(spec, n)
  {
    hide Compiled, NavigatesByEdges, WellFormed, StartList, Width, Continue;
    if n > 0 {
      CountActual(spec, env, start, n - 1);
      FrontierWidth(spec, env, start, n - 1);
    }
  }

  lemma ActualEmptyWidth(spec: GraphSpec, k: nat)
    ensures Actual(spec, k) == [] <==> Width(spec, k) == 0
  {
    if k == 0 && StartList(spec) != [] {
      assert StartList(spec)[0] in Actual(spec, 0);
    }
  }

  lemma {:induction false} CountLasting(spec: GraphSpec, env: Env, start: Point, n: nat)
    requires WellFormed(spec) && Compiled(spec, env.graph) && NavigatesByEdges(env)
    requires start.frontier == StartList(spec) && Lasts(env, start)
    ensures NodeCount(env, start, n) == Executed(spec, n)
  {
    hide Compiled, NavigatesByEdges, WellFormed, StartList, Width, After, Actual, Lasts;
    if n > 0 {
      CountLasting(spec, env, start, n - 1);
      LastingPoint(spec, env, start, n - 1);
      if After(env, start, n - 1).Some? {
        FrontierWidth(spec, env, start, n - 1);
      } else {
        ActualEmptyWidth(spec, n - 1);
      }
    }
  }

  // ---- Exactly when a budget is exceeded ------------------------------------------------------

  /** The conservative frontiers are not empty up to `n`, but the actual ones are wider in total. */
  ghost predicate ExcessAt(spec: GraphSpec, n: nat) {
    && 1 <= n <= Iterations(spec) && Executed(spec, n) > Observed(spec, n)
    && forall k: nat :: k < n ==> Possible(spec, k) != []
  }

  ghost predicate Excess(spec: GraphSpec) {
    exists n :: ExcessAt(spec, n)
  }

  /** The limit for the budget lets a run execute more nodes than the budget. */
  ghost predicate Exceeded(spec: GraphSpec, env: Env, start: Point, budget: nat, allowed: nat) {
    budget >= 1 && IsAllowed(spec, budget, allowed) && NodeCount(env, start, AtLeastOne(allowed)) > budget
  }

  /** Main result. If no superstep fails and every edge is followed, some budget is exceeded exactly if
    * the specification has an excess. */
  lemma BudgetExceededIff(spec: GraphSpec, env: Env, start: Point)
    requires WellFormed(spec) && Compiled(spec, env.graph) && NavigatesByEdges(env)
    requires start.frontier == StartList(spec) && Lasts(env, start)
    ensures (exists budget, allowed :: Exceeded(spec, env, start, budget, allowed)) <==> Excess(spec)
  {
    hide Compiled, NavigatesByEdges, StartList, NodeCount, Executed, Lasts;
    if budget, allowed :| Exceeded(spec, env, start, budget, allowed) {
      CountLasting(spec, env, start, AtLeastOne(allowed));
      if allowed == 0 {
        EndEntryAlone(spec, budget);
      }
      assert ExcessAt(spec, AtLeastOne(allowed));
    }
    if n :| ExcessAt(spec, n) {
      CountLasting(spec, env, start, n);
      TightBudget(spec, n);
      assert Exceeded(spec, env, start, Observed(spec, n), n);
    }
  }

  /** So every specification with an excess has a run, through nodes that store nothing, that exceeds a
    * budget, and no other has. */
  lemma ExcessIsReal(spec: GraphSpec, limits: Limits, data: Data)
    requires WellFormed(spec)
    ensures var env, start := SettingEnv(spec, limits, map[]), Point(data, StartList(spec));
      Excess(spec) <==> exists budget, allowed :: Exceeded(spec, env, start, budget, allowed)
  {
    hide WellFormed, SettingEnv, StartList, Excess, Exceeded;
    var env, start := SettingEnv(spec, limits, map[]), Point(data, StartList(spec));
    SettingFits(spec, limits, map[]);
    PassLasts(spec, limits, start);
    BudgetExceededIff(spec, env, start);
  }

  /** What the first conservative frontiers count is a budget they just fit. */
  lemma TightBudget(spec: GraphSpec, n: nat)
    requires 1 <= n <= Iterations(spec) && forall k: nat :: k < n ==> Possible(spec, k) != []
    ensures IsAllowed(spec, Observed(spec, n), n) && Observed(spec, n) >= 1
  {
    hide Possible;
    ObservedGrows(spec, 1, n);
    EndHasNoFrontier(spec);
    assert Possible(spec, 0) != [];
    assert Observed(spec, n + 1) == Observed(spec, n) + |Possible(spec, n)|;
  }

  /** Only an entry called END has no conservative frontier, and it runs alone at first. */
  lemma EndEntryAlone(spec: GraphSpec, budget: nat)
    requires WellFormed(spec) && IsAllowed(spec, budget, 0) && budget >= 1
    ensures Executed(spec, 1) <= 1
  {
    EndHasNoFrontier(spec);
    StartListExact(spec);
    assert Executed(spec, 1) == Executed(spec, 0) + Width(spec, 0);
  }

  lemma {:induction false} CountAtMost(spec: GraphSpec, env: Env, start: Point, n: nat)
    requires WellFormed(spec) && Compiled(spec, env.graph) && NavigatesByEdges(env) && start.frontier == StartList(spec)
    ensures NodeCount(env, start, n) <= Executed(spec, n)
  {
    hide Compiled, NavigatesByEdges, WellFormed, StartList, Width, After;
    if n > 0 {
      CountAtMost(spec, env, start, n - 1);
      if After(env, start, n - 1).Some? {
        FrontierWidth(spec, env, start, n - 1);
      }
    }
  }

  /** Without an excess no budget is exceeded, failures or not. */
  lemma NoExcessHolds(spec: GraphSpec, env: Env, start: Point, budget: nat, allowed: nat)
    requires WellFormed(spec) && Compiled(spec, env.graph) && NavigatesByEdges(env) && start.frontier == StartList(spec)
    requires !Excess(spec) && IsAllowed(spec, budget, allowed) && budget >= 1
    ensures NodeCount(env, start, AtLeastOne(allowed)) <= budget
  {
    hide WellFormed, Compiled, NavigatesByEdges, StartList, NodeCount, Executed;
    CountAtMost(spec, env, start, AtLeastOne(allowed));
    if allowed == 0 {
      EndEntryAlone(spec, budget);
    } else {
      assert !ExcessAt(spec, allowed);
    }
  }

  // ---- Without reserved names, and with them --------------------------------------------------

  /** The first frontiers: the entry, and after an entry with the name of the virtual start node also its
    * successors. */
  lemma FirstFrontiers(spec: GraphSpec)
    requires WellFormed(spec)
    ensures spec.entry in Ids(spec.nodes)
    ensures forall id :: id in Possible(spec, 0) <==> id == spec.entry && id != "END"
    ensures forall id :: id in Actual(spec, 0) ==>
      id != END && (id == spec.entry || (spec.entry == START && Successor(spec.edges, [START], id)))
    ensures spec.entry != END ==> spec.entry in Actual(spec, 0)
  {
    StartListExact(spec);
    EndHasNoFrontier(spec);
    assert Actual(spec, 0) == Dedup(StartList(spec));
    hide WellFormed, StartList, Successor, Possible, Actual;
  }

  /** Without a node named like the virtual start node the actual frontiers stay within the conservative
    * ones. */
  lemma {:induction false} ActualWithinPossible(spec: GraphSpec, k: nat, id: string)
    requires WellFormed(spec) && START !in Ids(spec.nodes) && spec.entry != "END" && id in Actual(spec, k)
    ensures id in Possible(spec, k)
  {
    hide StartList, WellFormed, Actual, Possible;
    if k == 0 {
      FirstFrontiers(spec);
    } else {
      var f, g := Actual(spec, k - 1), Possible(spec, k - 1);
      forall x | x in f ensures x in g {
        ActualWithinPossible(spec, k - 1, x);
      }
      ActualAreNodes(spec, k - 1);
      WithinNext(spec, k - 1, id);
    }
  }

  lemma WithinNext(spec: GraphSpec, k: nat, id: string)
    requires (forall x :: x in Actual(spec, k) ==>
      x in Possible(spec, k)) && START !in Actual(spec, k) && id in Actual(spec, k + 1)
    ensures id in Possible(spec, k + 1)
  {
    hide Actual, Possible;
    ActualNext(spec, k, id);
    PossibleNextId(spec, k, id);
  }

  /** Then there is no excess. */
  lemma NoStartNoExcess(spec: GraphSpec)
    requires WellFormed(spec) && START !in Ids(spec.nodes)
    ensures !Excess(spec)
  {
    forall n: nat ensures !ExcessAt(spec, n) {
      if n >= 1 && Possible(spec, 0) != [] {
        EndHasNoFrontier(spec);
        ExecutedWithin(spec, n);
      }
    }
  }

  lemma {:induction false} ExecutedWithin(spec: GraphSpec, n: nat)
    requires WellFormed(spec) && START !in Ids(spec.nodes) && spec.entry != "END"
    ensures Executed(spec, n) <= Observed(spec, n)
  {
    hide WellFormed, Actual, Possible, StartList;
    if n > 0 {
      ExecutedWithin(spec, n - 1);
      WidthWithin(spec, n - 1);
    }
  }

  lemma WidthWithin(spec: GraphSpec, k: nat)
    requires WellFormed(spec) && START !in Ids(spec.nodes) && spec.entry != "END"
    ensures Width(spec, k) <= |Possible(spec, k)|
  {
    hide WellFormed, Actual, StartList, Possible;
    if k == 0 {
      EntryIsNode(spec);
      StartListExact(spec);
      EndHasNoFrontier(spec);
    } else {
      forall id | id in Actual(spec, k) ensures id in Possible(spec, k) {
        ActualWithinPossible(spec, k, id);
      }
      NoDupSubset(Actual(spec, k), Possible(spec, k));
    }
  }

  lemma {:induction false} DropEndConcat(a: seq<string>, b: seq<string>)
    ensures DropEnd(a + b) == DropEnd(a) + DropEnd(b)
    decreases |b|
  {
    if b == [] {
      assert a + b == a;
    } else {
      var n := |b| - 1;
      assert (a + b)[..|a + b| - 1] == a + b[..n];
      DropEndConcat(a, b[..n]);
    }
  }

  lemma StartListSplit(spec: GraphSpec)
    requires spec.entry == START
    ensures StartList(spec) == [START] + DropEnd(Targets(Succ(spec.edges, START)))
  {
    DropOne(START);
    hide Succ, Targets, DropEnd;
    DropEndConcat([START], Targets(Succ(spec.edges, START)));
  }

  lemma KeptTargets(spec: GraphSpec)
    ensures DropEnd(Targets(Succ(spec.edges, START))) != [] <==> exists to :: Linked(spec, START, to) && to != END
  {
    hide Succ;
    var succ := Succ(spec.edges, START);
    var kept := DropEnd(Targets(succ));
    if kept != [] {
      assert kept[0] in kept;
      var i :| 0 <= i < |succ| && Targets(succ)[i] == kept[0];
      SuccMember(spec.edges, START, succ[i]);
      assert Linked(spec, START, succ[i]);
    }
    if to :| Linked(spec, START, to) && to != END {
      SuccMember(spec.edges, START, to);
      var i :| 0 <= i < |succ| && succ[i] == to;
      assert Targets(succ)[i] == to;
      assert to in kept;
    }
  }

  /** With an entry of that name there is one exactly if an edge leads from the entry to a node (other
    * than one called like the end of a graph). */
  lemma EntryStartExcess(spec: GraphSpec)
    requires WellFormed(spec) && spec.entry == START
    ensures Excess(spec) <==> exists to :: Linked(spec, START, to) && to != END
  {
    hide StartList, DropEnd, WellFormed, Possible, Actual;
    IterationsPositive(spec);
    EndHasNoFrontier(spec);
    StartListSplit(spec);
    KeptTargets(spec);
    if to :| Linked(spec, START, to) && to != END {
      assert Executed(spec, 1) == Executed(spec, 0) + Width(spec, 0);
      assert ExcessAt(spec, 1);
    } else {
      forall n: nat ensures !ExcessAt(spec, n) {
        if forall k: nat :: k < n ==> Possible(spec, k) != [] {
          LonelyStart(spec, n);
        }
      }
    }
  }

  lemma IterationsPositive(spec: GraphSpec)
    requires WellFormed(spec)
    ensures Iterations(spec) >= 1
  {
  }

  /** Alone, it leads to itself for ever. */
  lemma {:induction false} LonelyStart(spec: GraphSpec, n: nat)
    requires spec.entry == START && forall to :: Linked(spec, START, to) ==> to == END
    requires forall k: nat :: k < n ==> Possible(spec, k) != []
    ensures Executed(spec, n) <= Observed(spec, n)
  {
    hide StartList, DropEnd, Possible, Actual;
    if n > 0 {
      LonelyStart(spec, n - 1);
      LonelyFrontier(spec, n - 1);
    }
  }

  lemma {:induction false} LonelyFrontier(spec: GraphSpec, k: nat)
    requires spec.entry == START && forall to :: Linked(spec, START, to) ==> to == END
    ensures Width(spec, k) <= 1 && forall id :: id in Actual(spec, k) ==> id == START
  {
    hide StartList, Actual;
    if k == 0 {
      LonelyFirst(spec);
    } else {
      LonelyFrontier(spec, k - 1);
      LonelyNext(spec, k);
      NoDupSubset(Actual(spec, k), [START]);
    }
  }

  lemma LonelyFirst(spec: GraphSpec)
    requires spec.entry == START && forall to :: Linked(spec, START, to) ==> to == END
    ensures |StartList(spec)| <= 1 && forall id :: id in Actual(spec, 0) ==> id == START
  {
    hide StartList, DropEnd, Targets, Succ;
    StartListSplit(spec);
    KeptTargets(spec);
    assert Actual(spec, 0) == Dedup(StartList(spec));
  }

  lemma LonelyNext(spec: GraphSpec, k: nat)
    requires spec.entry == START && forall to :: Linked(spec, START, to) ==> to == END
    requires k > 0 && var before := Actual(spec, k - 1); forall id :: id in before ==> id == START
    ensures forall id :: id in Actual(spec, k) ==> id == START
  {
    hide Actual;
    forall id | id in Actual(spec, k) ensures id == START {
      ActualNext(spec, k - 1, id);
      assert Successor(spec.edges, Actual(spec, k - 1), id) ==> Linked(spec, START, id);
    }
  }

  // ---- A later node of that name -----------------------------------------------------------------

  lemma CoversNext(spec: GraphSpec, k: nat, id: string)
    requires WellFormed(spec) && END !in Ids(spec.nodes)
    requires (forall x :: x in Possible(spec, k) ==> x in Actual(spec, k)) && id in Possible(spec, k + 1)
    ensures id in Actual(spec, k + 1)
  {
    hide Actual, Possible, WellFormed;
    PossibleNextId(spec, k, id);
    SuccessorsAreNodes(spec, Possible(spec, k), id);
    ActualNext(spec, k, id);
  }

  lemma {:induction false} PossibleWithinActual(spec: GraphSpec, k: nat, id: string)
    requires WellFormed(spec) && END !in Ids(spec.nodes) && id in Possible(spec, k)
    ensures id in Actual(spec, k)
  {
    hide StartList, WellFormed, Actual, Possible;
    if k == 0 {
      FirstFrontiers(spec);
    } else {
      var f, g := Actual(spec, k - 1), Possible(spec, k - 1);
      forall x | x in g ensures x in f {
        PossibleWithinActual(spec, k - 1, x);
      }
      CoversNext(spec, k - 1, id);
    }
  }

  lemma WidthAtLeast(spec: GraphSpec, k: nat)
    requires WellFormed(spec) && END !in Ids(spec.nodes)
    ensures |Possible(spec, k)| <= Width(spec, k)
  {
    hide WellFormed, Possible, StartList;
    forall id | id in Possible(spec, k) ensures id in Actual(spec, k) {
      PossibleWithinActual(spec, k, id);
    }
    NoDupSubset(Possible(spec, k), Actual(spec, k));
    if k == 0 {
      DedupShorter(StartList(spec));
    }
  }

  lemma {:induction false} DedupShorter(s: seq<string>)
    ensures |Dedup(s)| <= |s|
    decreases |s|
  {
    if s != [] {
      DedupShorter(s[..|s| - 1]);
    }
  }

  lemma {:induction false} ExecutedAtLeast(spec: GraphSpec, n: nat)
    requires WellFormed(spec) && END !in Ids(spec.nodes)
    ensures Executed(spec, n) >= Observed(spec, n)
  {
    hide WellFormed, Possible, Width;
    if n > 0 {
      ExecutedAtLeast(spec, n - 1);
      WidthAtLeast(spec, n - 1);
    }
  }

  ghost predicate Alike(spec: GraphSpec, k: nat) {
    forall id :: id in Actual(spec, k) <==> id in Possible(spec, k)
  }

  /** As long as the two frontiers are alike, the next actual one is the conservative one, and after a
    * node with the name of the virtual start node also the entry. */
  lemma WayBackAdds(spec: GraphSpec, k: nat)
    requires WellFormed(spec) && END !in Ids(spec.nodes) && Alike(spec, k)
    ensures var next, possible := Actual(spec, k + 1), Possible(spec, k + 1);
      forall id :: id in next <==> id in possible || (START in Possible(spec, k) && id == spec.entry)
  {
    hide WellFormed, Actual, Possible;
    EntryIsNode(spec);
    var f, g := Actual(spec, k), Possible(spec, k);
    var next, possible := Actual(spec, k + 1), Possible(spec, k + 1);
    forall id ensures id in next <==> id in possible || (START in g && id == spec.entry) {
      ActualNext(spec, k, id);
      PossibleNextId(spec, k, id);
      SameSuccessors(spec.edges, f, g, id);
      if Follows(spec, f, id) {
        FollowsIsNode(spec, f, id);
      }
    }
  }

  lemma SameSuccessors(edges: seq<EdgeSpec>, f: seq<string>, g: seq<string>, id: string)
    requires forall x :: x in f <==> x in g
    ensures Successor(edges, f, id) <==> Successor(edges, g, id)
  {
  }

  /** The step after `k` runs a node of that name, leads back to the entry, and the conservative frontier
    * neither holds the entry nor is empty. */
  ghost predicate Returns(spec: GraphSpec, k: nat) {
    && k + 2 <= Iterations(spec) && START in Possible(spec, k)
    && spec.entry !in Possible(spec, k + 1) && Possible(spec, k + 1) != []
  }

  lemma {:induction false} AlikeUntilReturn(spec: GraphSpec, n: nat)
    requires WellFormed(spec) && END !in Ids(spec.nodes) && spec.entry != START && spec.entry != "END"
    requires n <= Iterations(spec)
    requires forall k: nat :: k < n ==> Possible(spec, k) != []
    requires forall k: nat :: !Returns(spec, k)
    ensures n > 0 ==> Alike(spec, n - 1)
    ensures Executed(spec, n) == Observed(spec, n)
  {
    hide WellFormed, Possible, Actual, StartList, Alike, Width;
    if n > 0 {
      AlikeUntilReturn(spec, n - 1);
      if n == 1 {
        AlikeAtFirst(spec);
      } else {
        AlikeNext(spec, n - 2);
      }
      EntryIsNode(spec);
      AlikeWidth(spec, n - 1);
    }
  }

  lemma AlikeNext(spec: GraphSpec, k: nat)
    requires WellFormed(spec) && END !in Ids(spec.nodes) && Alike(spec, k) && !Returns(spec, k)
    requires k + 2 <= Iterations(spec) && Possible(spec, k + 1) != []
    ensures Alike(spec, k + 1)
  {
    hide WellFormed, Possible, Actual;
    WayBackAdds(spec, k);
  }

  lemma AlikeWidth(spec: GraphSpec, k: nat)
    requires WellFormed(spec) && spec.entry != START && spec.entry != "END" && spec.entry != END && Alike(spec, k)
    ensures Width(spec, k) == |Possible(spec, k)|
  {
    hide WellFormed, Possible, Actual, StartList;
    StartListExact(spec);
    EndHasNoFrontier(spec);
    SameMembersSameLength(Actual(spec, k), Possible(spec, k));
  }

  lemma AlikeAtFirst(spec: GraphSpec)
    requires WellFormed(spec) && END !in Ids(spec.nodes) && spec.entry != START && spec.entry != "END"
    ensures Alike(spec, 0)
  {
    StartListExact(spec);
    EntryIsNode(spec);
    EndHasNoFrontier(spec);
  }

  lemma {:induction false} PossibleEmptyStays(spec: GraphSpec, m: nat, n: nat)
    requires m <= n && Possible(spec, m) == []
    ensures Possible(spec, n) == []
    decreases n
  {
    hide Possible;
    if m < n {
      PossibleEmptyStays(spec, m, n - 1);
      forall id ensures id !in Possible(spec, n) {
        PossibleNextId(spec, n - 1, id);
      }
      HeadIn(Possible(spec, n));
    }
  }

  /** Main result. With another entry there is an excess exactly if some step returns. */
  lemma LaterStartExcess(spec: GraphSpec)
    requires WellFormed(spec) && END !in Ids(spec.nodes) && spec.entry != START
    ensures Excess(spec) <==> exists k :: Returns(spec, k)
  {
    hide WellFormed, Possible, Actual, StartList;
    EndHasNoFrontier(spec);
    if k :| Returns(spec, k) {
      ReturnIsExcess(spec, k);
    } else {
      forall n: nat ensures !ExcessAt(spec, n) {
        if 1 <= n <= Iterations(spec) && forall k: nat :: k < n ==> Possible(spec, k) != [] {
          AlikeUntilReturn(spec, n);
        }
      }
    }
  }

  lemma ReturnIsExcess(spec: GraphSpec, k: nat)
    requires WellFormed(spec) && END !in Ids(spec.nodes) && Returns(spec, k)
    ensures ExcessAt(spec, k + 2)
  {
    hide WellFormed, StartList, Possible, Actual, Follows;
    forall m: nat | m < k + 2 ensures Possible(spec, m) != [] {
      if Possible(spec, m) == [] {
        PossibleEmptyStays(spec, m, k + 1);
      }
    }
    ExecutedAtLeast(spec, k + 1);
    WiderAfterReturn(spec, k);
    assert Executed(spec, k + 2) == Executed(spec, k + 1) + Width(spec, k + 1);
    assert Observed(spec, k + 2) == Observed(spec, k + 1) + |Possible(spec, k + 1)|;
  }

  lemma WiderAfterReturn(spec: GraphSpec, k: nat)
    requires WellFormed(spec) && END !in Ids(spec.nodes) && Returns(spec, k)
    ensures |Possible(spec, k + 1)| < |Actual(spec, k + 1)|
  {
    hide WellFormed, StartList, Possible, Actual;
    var possible, actual := Possible(spec, k + 1), Actual(spec, k + 1);
    PossibleWithinActual(spec, k, START);
    EntryIsNode(spec);
    ActualNext(spec, k, spec.entry);
    forall id | id in possible ensures id in actual {
      PossibleWithinActual(spec, k + 1, id);
    }
    StrictlyWider(possible, actual, spec.entry);
  }

  lemma StrictlyWider(a: seq<string>, b: seq<string>, extra: string)
    requires NoDup(a) && (forall x :: x in a ==> x in b) && extra in b && extra !in a
    ensures |a| < |b|
  {
    NoDupSubset(a + [extra], b);
  }

  /** Main result, for nodes that store nothing. Exactly the specifications below exceed a budget: those
    * whose entry is called like the virtual start node and has an edge to a node, and those with another
    * node of that name after which a step returns. */
  lemma BudgetFailsIff(spec: GraphSpec, limits: Limits, data: Data)
    requires WellFormed(spec) && END !in Ids(spec.nodes)
    ensures var env, start := SettingEnv(spec, limits, map[]), Point(data, StartList(spec));
      (exists budget, allowed :: Exceeded(spec, env, start, budget, allowed)) <==>
        if spec.entry == START then exists to :: Linked(spec, START, to) else exists k :: Returns(spec, k)
  {
    hide WellFormed, SettingEnv, StartList, Excess, Exceeded, Returns;
    ExcessIsReal(spec, limits, data);
    if spec.entry == START {
      EntryStartExcess(spec);
      forall to | Linked(spec, START, to) ensures to != END {
        EdgeTarget(spec, EdgeSpec(START, to));
      }
    } else {
      LaterStartExcess(spec);
    }
  }

  // ---- Maximality -----------------------------------------------------------------------------------

  /** Main result. Where every edge is followed no larger limit is safe: if the conservative frontier
    * after `allowed` supersteps is not empty, and the iteration limit does not stop the run, one more
    * superstep exceeds the budget. Without reserved names that frontier is not empty exactly if the run
    * is not finished; with a node called like the end of a graph the count can still be told. */
  lemma BudgetLargest(spec: GraphSpec, env: Env, start: Point, maxNodes: nat, allowed: nat)
    requires WellFormed(spec) && Compiled(spec, env.graph) && NavigatesByEdges(env)
    requires start.frontier == StartList(spec)
    requires IsAllowed(spec, maxNodes, allowed) && allowed < Iterations(spec) && After(env, start, allowed).Some?
    ensures NodeCount(env, start, allowed + 1) == Executed(spec, allowed + 1)
    ensures END !in Ids(spec.nodes) && Possible(spec, allowed) != [] ==> NodeCount(env, start, allowed + 1) > maxNodes
    ensures END !in Ids(spec.nodes) && START !in Ids(spec.nodes) && spec.entry != "END" ==>
      (Possible(spec, allowed) != [] <==> !Finished(env, start, allowed))
  {
    hide Compiled, NavigatesByEdges, WellFormed, StartList, Possible, Actual, After, NodeCount, Finished;
    CountActual(spec, env, start, allowed + 1);
    FrontierActual(spec, env, start, allowed);
    FrontierDone(env, start, allowed, After(env, start, allowed).value);
    var f, a, p := After(env, start, allowed).value.frontier, Actual(spec, allowed), Possible(spec, allowed);
    if END !in Ids(spec.nodes) {
      ExecutedAtLeast(spec, allowed + 1);
      if p != [] {
        PossibleWithinActual(spec, allowed, p[0]);
      }
      if START !in Ids(spec.nodes) && spec.entry != "END" && f != [] {
        assert f[0] in a;
        ActualWithinPossible(spec, allowed, f[0]);
      }
    }
  }

  // ---- Inputs that exceed their budgets -------------------------------------------------------------

  /** The entry bears the name of the virtual start node, and has an edge to a node. */
  function StartLoop(): GraphSpec {
    GraphSpec("g", START, [Idle(START), Idle("a")], [EdgeSpec(START, "a")], None, None, map[])
  }

  lemma StartLoopWellFormed()
    ensures WellFormed(StartLoop()) && StartLoop().entry == START
  {
    var spec := StartLoop();
    assert Ids(spec.nodes)[0] == START && Ids(spec.nodes)[1] == "a";
    assert spec.edges[0] == EdgeSpec(START, "a");
    assert EndpointsOk(spec.nodes, spec.edges[0]);
  }

  lemma StartLoopSuccessors()
    ensures Succ(StartLoop().edges, START) == ["a"]
  {
    var edges := StartLoop().edges;
    assert edges[..0] == [] && edges[0] == EdgeSpec(START, "a") && Succ([], START) == [];
  }

  lemma StartLoopList()
    ensures StartList(StartLoop()) == [START, "a"]
  {
    hide Succ, DropEnd, StartList;
    StartLoopSuccessors();
    assert Targets(["a"]) == ["a"];
    StartListSplit(StartLoop());
    DropOne("a");
  }

  lemma DropOne(id: string)
    requires id != END
    ensures DropEnd([id]) == [id]
  {
    assert [id][..0] == [] && DropEnd([]) == [];
  }

  /** A budget of one node is exceeded in the first superstep. */
  lemma StartNameBreaksBudget(env: Env, data: Data, start: Point)
    requires Compiled(StartLoop(), env.graph) && StartsAt(env, data, START, start)
    ensures WellFormed(StartLoop()) && StartLoop().entry == START
    ensures IsAllowed(StartLoop(), 1, 1) && NodeCount(env, start, 1) == 2
  {
    StartLoopWellFormed();
    StartLoopList();
    hide WellFormed, IsAllowed, Compiled, StartsAt;
    IterationsOf(StartLoop());
    EndHasNoFrontier(StartLoop());
    TightBudget(StartLoop(), 1);
    StartIsList(StartLoop(), env, data, start);
    AfterNone(env, start);
    assert NodeCount(env, start, 0) == 0;
  }

  lemma IterationsOf(spec: GraphSpec)
    ensures spec.maxIterations.None? ==> Iterations(spec) == MAX_ITERATIONS
  {
  }

  /** A later node bears that name. */
  function Middle(): GraphSpec {
    GraphSpec("g", "e", [Idle("e"), Idle(START), Idle("x")], [EdgeSpec("e", START), EdgeSpec(START, "x")], None, None, map[])
  }

  lemma MiddleWellFormed()
    ensures WellFormed(Middle()) && END !in Ids(Middle().nodes)
  {
    var spec := Middle();
    var ids := Ids(spec.nodes);
    assert ids[0] == "e" && ids[1] == START && ids[2] == "x";
    assert spec.edges[0] == EdgeSpec("e", START) && spec.edges[1] == EdgeSpec(START, "x");
    assert EndpointsOk(spec.nodes, spec.edges[0]) && EndpointsOk(spec.nodes, spec.edges[1]);
  }

  lemma MiddleSuccessors(frontier: seq<string>, id: string)
    ensures Successor(Middle().edges, frontier, id) <==> ("e" in frontier && id == START) || (START in frontier && id == "x")
  {
    var edges := Middle().edges;
    assert edges[0] == EdgeSpec("e", START) && edges[1] == EdgeSpec(START, "x");
  }

  lemma OneMember(s: seq<string>, id: string)
    requires NoDup(s) && forall x :: x in s <==> x == id
    ensures s == [id]
  {
    assert id in s && forall x :: x in [id] <==> x == id;
    SameMembersSameLength(s, [id]);
    assert s[0] in s;
  }

  /** Its conservative frontiers: one node each. */
  lemma MiddlePossible()
    ensures Possible(Middle(), 0) == ["e"] && Possible(Middle(), 1) == [START] && Possible(Middle(), 2) == ["x"]
    ensures Observed(Middle(), 3) == 3
  {
    var spec := Middle();
    EndHasNoFrontier(spec);
    hide Possible;
    forall id ensures (id in Possible(spec, 1) <==> id == START) {
      PossibleNextId(spec, 0, id);
      MiddleSuccessors(["e"], id);
    }
    OneMember(Possible(spec, 1), START);
    forall id ensures (id in Possible(spec, 2) <==> id == "x") {
      PossibleNextId(spec, 1, id);
      MiddleSuccessors([START], id);
    }
    OneMember(Possible(spec, 2), "x");
    assert Observed(spec, 2) == Observed(spec, 1) + 1;
    assert Observed(spec, 3) == Observed(spec, 2) + 1;
  }

  lemma MiddleExecuted()
    ensures Executed(Middle(), 3) == 4
  {
    var spec := Middle();
    MiddleWellFormed();
    MiddlePossible();
    hide WellFormed, Possible, Actual, StartList;
    AlikeAtFirst(spec);
    AlikeWidth(spec, 0);
    WayBackAdds(spec, 0);
    assert Alike(spec, 1);
    AlikeWidth(spec, 1);
    WayBackAdds(spec, 1);
    var actual, both := Actual(spec, 2), ["e", "x"];
    assert both[0] == "e" && both[1] == "x";
    SameMembersSameLength(actual, both);
    assert Executed(spec, 0) == 0 && Executed(spec, 1) == Executed(spec, 0) + Width(spec, 0);
    assert Executed(spec, 2) == Executed(spec, 1) + Width(spec, 1);
    assert Executed(spec, 3) == Executed(spec, 2) + Width(spec, 2);
  }

  lemma MiddleReturns()
    ensures Returns(Middle(), 1) && IsAllowed(Middle(), 3, 3)
  {
    var spec := Middle();
    MiddlePossible();
    hide Possible;
    IterationsOf(spec);
    TightBudget(spec, 3);
  }

  /** A budget of three nodes is exceeded in the third superstep, which runs the entry again. */
  lemma LaterStartBreaksBudget(env: Env, data: Data, start: Point)
    requires Compiled(Middle(), env.graph) && NavigatesByEdges(env)
    requires StartsAt(env, data, Middle().entry, start) && After(env, start, 2).Some?
    ensures WellFormed(Middle()) && Middle().entry != START && Returns(Middle(), 1)
    ensures IsAllowed(Middle(), 3, 3) && NodeCount(env, start, 3) == 4
  {
    var spec := Middle();
    MiddleWellFormed();
    hide WellFormed, Compiled, NavigatesByEdges, StartsAt, After, Possible, Observed, NodeCount, Returns, IsAllowed,
      StartList, Executed;
    MiddleReturns();
    StartIsList(spec, env, data, start);
    CountActual(spec, env, start, 3);
    MiddleExecuted();
  }

  /** There is such a run: nodes that store nothing get that far. */
  lemma MiddleRuns(limits: Limits, data: Data)
    ensures var env, start := SettingEnv(Middle(), limits, map[]), Point(data, StartList(Middle()));
      StartsAt(env, data, Middle().entry, start) && NodeCount(env, start, 3) == 4
  {
    var env, start := SettingEnv(Middle(), limits, map[]), Point(data, StartList(Middle()));
    MiddleStarts(env, data);
    MiddleWellFormed();
    hide WellFormed, SettingEnv, StartList, Executed, NodeCount, StartsAt;
    SettingFits(Middle(), limits, map[]);
    PassLasts(Middle(), limits, start);
    CountLasting(Middle(), env, start, 3);
    MiddleExecuted();
  }

  lemma MiddleStarts(env: Env, data: Data)
    ensures StartsAt(env, data, Middle().entry, Point(data, StartList(Middle())))
  {
    hide DropEnd;
  }
}

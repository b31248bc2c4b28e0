/** Exactly which nodes run in one superstep where every edge is followed: a node with the name of the
  * virtual start node leads back to the entry, so that levels count modulo the length of the way to it. */
module RaceLimits {
  import opened Values
  import opened Reducers
  import opened AgentStates
  import opened Graphs
  import opened EngineSpec
  import opened Merging
  import opened Closure
  import opened GraphSpecs
  import opened Chains
  import opened Compiling
  import opened Following
  import opened Frontiers
  import opened Races
  import opened ChainRuns

  /** An entry walk all of whose nodes run: none is called like the end of a graph. */
  ghost predicate LiveWalk(spec: GraphSpec, w: seq<string>) {
    EntryWalk(spec, w) && END !in w
  }

  ghost predicate EndsAt(spec: GraphSpec, w: seq<string>, id: string) {
    LiveWalk(spec, w) && w[|w| - 1] == id
  }

  /** All live walks to a node named like the virtual start node have length `period`; zero means there is
    * none. */
  ghost predicate IsPeriod(spec: GraphSpec, period: nat) {
    && (period > 0 ==> exists w :: EndsAt(spec, w, START))
    && forall w :: EndsAt(spec, w, START) ==> |w| == period
  }

  /** The superstep in which a node of that level runs in lap `i`. */
  function Lap(level: nat, i: nat, period: nat): nat {
    level + i * period
  }

  /** Two levels agree up to whole laps. */
  ghost predicate Agree(m: nat, n: nat, period: nat) {
    exists i: nat, j: nat :: Lap(m, i, period) == Lap(n, j, period)
  }

  lemma FarApart(d: int, p: int)
    requires p > 0
    ensures (d >= 1 ==> d * p >= p) && (d <= -1 ==> d * p <= -p)
  {
    assert d >= 1 ==> (d - 1) * p >= 0;
    assert d <= -1 ==> (d + 1) * p <= 0;
  }

  lemma ModuloUnique(x: nat, q: nat, r: nat, p: nat)
    requires r < p && x == q * p + r
    ensures x % p == r
  {
    var d := q - x / p;
    assert x == (x / p) * p + x % p;
    assert d * p == q * p - (x / p) * p;
    FarApart(d, p);
  }

  lemma LapModulo(m: nat, i: nat, period: nat)
    requires period > 0
    ensures Lap(m, i, period) % period == m % period
  {
    var q := m / period;
    assert m == q * period + m % period;
    assert (q + i) * period == q * period + i * period;
    ModuloUnique(Lap(m, i, period), q + i, m % period, period);
  }

  /** That is, modulo the period. */
  lemma AgreeIsModulo(m: nat, n: nat, period: nat)
    ensures Agree(m, n, period) <==> if period == 0 then m == n else m % period == n % period
  {
    if period == 0 {
      assert Lap(m, 0, 0) == m && Lap(n, 0, 0) == n;
    } else if m % period == n % period {
      SameRestAgree(m, n, period);
    } else if i: nat, j: nat :| Lap(m, i, period) == Lap(n, j, period) {
      LapModulo(m, i, period);
      LapModulo(n, j, period);
    }
  }

  lemma SameRestAgree(m: nat, n: nat, period: nat)
    requires period > 0 && m % period == n % period
    ensures Agree(m, n, period)
  {
    var i, j := n / period, m / period;
    assert m == j * period + m % period && n == i * period + n % period;
    assert Lap(m, i, period) == Lap(n, j, period);
  }

  lemma LapNext(m: nat, i: nat, period: nat)
    ensures Lap(m, i + 1, period) == Lap(m, i, period) + period
  {
    assert (i + 1) * period == i * period + period;
  }

  // ---- Where a node runs -------------------------------------------------------------------------

  lemma FirstActual(spec: GraphSpec)
    requires WellFormed(spec)
    ensures forall id :: id in Actual(spec, 0) <==>
      id != END && (id == spec.entry || (spec.entry == START && Successor(spec.edges, [START], id)))
  {
    StartListExact(spec);
    assert Actual(spec, 0) == Dedup(StartList(spec));
  }

  lemma Longer(spec: GraphSpec, w: seq<string>, id: string)
    requires LiveWalk(spec, w) && Linked(spec, w[|w| - 1], id) && id != END
    ensures EndsAt(spec, w + [id], id)
  {
    var v := w + [id];
    forall i | 0 < i < |v| ensures Linked(spec, v[i - 1], v[i]) {
      if i < |w| {
        assert Linked(spec, w[i - 1], w[i]);
      }
    }
  }

  /** A node that runs in superstep `k` ends a live walk of that level, up to whole laps. */
  lemma {:induction false} RunsOnLevel(spec: GraphSpec, period: nat, k: nat, id: string)
    returns (w: seq<string>, i: nat, j: nat)
    requires WellFormed(spec) && IsPeriod(spec, period) && id in Actual(spec, k)
    ensures EndsAt(spec, w, id) && Lap(|w| - 1, i, period) == Lap(k, j, period)
  {
    hide Actual, WellFormed, IsPeriod;
    if k == 0 {
      FirstActual(spec);
      w, i, j := [spec.entry], 0, 0;
      if id != spec.entry {
        PeriodIs(spec, period, w);
        assert Linked(spec, START, id);
        Longer(spec, w, id);
        w, i, j := w + [id], 0, 1;
      }
    } else {
      ActualNext(spec, k - 1, id);
      if Successor(spec.edges, Actual(spec, k - 1), id) {
        var from :| from in Actual(spec, k - 1) && EdgeSpec(from, id) in spec.edges;
        w, i, j := RunsOnLevel(spec, period, k - 1, from);
        assert Linked(spec, from, id);
        Longer(spec, w, id);
        w := w + [id];
      } else {
        w, i, j := RunsOnLevel(spec, period, k - 1, START);
        PeriodIs(spec, period, w);
        LapNext(0, i, period);
        w, i := [spec.entry], i + 1;
      }
    }
  }

  lemma PeriodIs(spec: GraphSpec, period: nat, w: seq<string>)
    requires IsPeriod(spec, period) && EndsAt(spec, w, START)
    ensures |w| == period
  {
  }

  /** Where the entry runs, a live walk is followed from there. */
  lemma {:induction false} FollowedFrom(spec: GraphSpec, w: seq<string>, m: nat)
    requires LiveWalk(spec, w) && spec.entry in Actual(spec, m)
    ensures w[|w| - 1] in Actual(spec, m + |w| - 1)
    decreases |w|
  {
    hide Actual;
    var n := |w| - 1;
    assert w[n] in w;
    if n > 0 {
      var v := w[..n];
      forall i | 0 < i < |v| ensures Linked(spec, v[i - 1], v[i]) {
        assert Linked(spec, w[i - 1], w[i]);
      }
      FollowedFrom(spec, v, m);
      assert Linked(spec, w[n - 1], w[n]);
      assert Successor(spec.edges, Actual(spec, m + n - 1), w[n]);
      ActualNext(spec, m + n - 1, w[n]);
    }
  }

  /** The entry runs again in every lap. */
  lemma {:induction false} EntryReturns(spec: GraphSpec, period: nat, i: nat)
    requires WellFormed(spec) && IsPeriod(spec, period) && spec.entry != END
    ensures spec.entry in Actual(spec, Lap(0, i, period))
  {
    hide Actual, WellFormed, LiveWalk;
    if i == 0 || period == 0 {
      FirstActual(spec);
    } else {
      EntryReturns(spec, period, i - 1);
      LapNext(0, i - 1, period);
      var m := Lap(0, i - 1, period);
      var w :| EndsAt(spec, w, START);
      FollowedFrom(spec, w, m);
      ActualNext(spec, m + period - 1, spec.entry);
    }
  }

  lemma RunsInLap(spec: GraphSpec, period: nat, w: seq<string>, i: nat)
    requires WellFormed(spec) && IsPeriod(spec, period) && LiveWalk(spec, w)
    ensures w[|w| - 1] in Actual(spec, Lap(|w| - 1, i, period))
  {
    hide Actual, WellFormed, IsPeriod;
    assert w[0] in w;
    EntryReturns(spec, period, i);
    FollowedFrom(spec, w, Lap(0, i, period));
  }

  ghost predicate Meet(spec: GraphSpec, k: nat, a: string, b: string) {
    a in Actual(spec, k) && b in Actual(spec, k)
  }

  ghost predicate WalksAgree(spec: GraphSpec, v: seq<string>, w: seq<string>, a: string, b: string, period: nat) {
    EndsAt(spec, v, a) && EndsAt(spec, w, b) && Agree(|v| - 1, |w| - 1, period)
  }

  /** Main result. Two nodes run in one superstep exactly if they end live walks whose levels agree up to
    * whole laps. */
  lemma MeetIff(spec: GraphSpec, period: nat, a: string, b: string)
    requires WellFormed(spec) && IsPeriod(spec, period)
    ensures (exists k :: Meet(spec, k, a, b)) <==> exists v, w :: WalksAgree(spec, v, w, a, b, period)
  {
    hide WellFormed, IsPeriod, Actual;
    if k :| Meet(spec, k, a, b) {
      var v, i, j := RunsOnLevel(spec, period, k, a);
      var w, i', j' := RunsOnLevel(spec, period, k, b);
      LapsAdd(|v| - 1, |w| - 1, k, i, j, i', j', period);
      assert WalksAgree(spec, v, w, a, b, period);
    }
    if v, w :| WalksAgree(spec, v, w, a, b, period) {
      var i: nat, j: nat :| Lap(|v| - 1, i, period) == Lap(|w| - 1, j, period);
      RunsInLap(spec, period, v, i);
      RunsInLap(spec, period, w, j);
      assert Meet(spec, Lap(|v| - 1, i, period), a, b);
    }
  }

  lemma LapsAdd(m: nat, n: nat, k: nat, i: nat, j: nat, i': nat, j': nat, period: nat)
    requires Lap(m, i, period) == Lap(k, j, period) && Lap(n, i', period) == Lap(k, j', period)
    ensures Agree(m, n, period)
  {
    assert (i + j') * period == i * period + j' * period;
    assert (i' + j) * period == i' * period + j * period;
    assert Lap(m, i + j', period) == Lap(n, i' + j, period);
  }

  // ---- Races -------------------------------------------------------------------------------------

  ghost predicate RacesIn(spec: GraphSpec, k: nat, key: string) {
    RacesOn(spec, Actual(spec, k), key)
  }

  /** Two different writers of the key end live walks whose levels agree up to whole laps. */
  ghost predicate Rivals(spec: GraphSpec, a: string, b: string, key: string, period: nat) {
    && a != b && Declares(spec, a, key) && Declares(spec, b, key)
    && exists v, w :: WalksAgree(spec, v, w, a, b, period)
  }

  /** Main result, for every specification with a period, levelled or not. Where every edge is followed, some
    * superstep races on the key exactly if it has rivals. */
  lemma RacesIff(spec: GraphSpec, period: nat, key: string)
    requires WellFormed(spec) && IsPeriod(spec, period)
    ensures (exists k :: RacesIn(spec, k, key)) <==> exists a, b :: Rivals(spec, a, b, key, period)
  {
    hide WellFormed, IsPeriod, Actual, Declares, WalksAgree;
    if k :| RacesIn(spec, k, key) {
      var f := Actual(spec, k);
      var a, b :| a in f && b in f && a != b && Declares(spec, a, key) && Declares(spec, b, key);
      assert Meet(spec, k, a, b);
      MeetIff(spec, period, a, b);
      assert Rivals(spec, a, b, key, period);
    }
    if a, b :| Rivals(spec, a, b, key, period) {
      MeetIff(spec, period, a, b);
      var k :| Meet(spec, k, a, b);
      TwoDeclare(spec, Actual(spec, k), key, a, b);
      assert RacesIn(spec, k, key);
    }
  }

  ghost predicate RacesAt(spec: GraphSpec, env: Env, start: Point, n: nat, key: string) {
    After(env, start, n).Some? && RacesOn(spec, After(env, start, n).value.frontier, key)
  }

  lemma SameRaces(spec: GraphSpec, f: seq<string>, g: seq<string>, key: string)
    requires forall id :: id in f <==> id in g
    ensures RacesOn(spec, f, key) <==> RacesOn(spec, g, key)
  {
    hide Declares;
    if RacesOn(spec, f, key) {
      var a, b :| a in f && b in f && a != b && Declares(spec, a, key) && Declares(spec, b, key);
      TwoDeclare(spec, g, key, a, b);
    }
    if RacesOn(spec, g, key) {
      var a, b :| a in g && b in g && a != b && Declares(spec, a, key) && Declares(spec, b, key);
      TwoDeclare(spec, f, key, a, b);
    }
  }

  /** A superstep of a run races exactly if the frontier told from the specification does. */
  lemma RaceIsActual(spec: GraphSpec, env: Env, start: Point, n: nat, key: string)
    requires WellFormed(spec) && Compiled(spec, env.graph) && NavigatesByEdges(env) && start.frontier == StartList(spec)
    requires After(env, start, n).Some?
    ensures RacesAt(spec, env, start, n, key) <==> RacesIn(spec, n, key)
  {
    hide WellFormed, Compiled, NavigatesByEdges, StartList, After, RacesOn;
    FrontierActual(spec, env, start, n);
    SameRaces(spec, After(env, start, n).value.frontier, Actual(spec, n), key);
  }

  /** Whatever the specification, a run that follows every edge and does not fail races exactly if one of the
    * frontiers told from the specification does. */
  lemma RunRacesIffActual(spec: GraphSpec, env: Env, start: Point, key: string)
    requires WellFormed(spec) && Compiled(spec, env.graph) && NavigatesByEdges(env) && start.frontier == StartList(spec)
    requires Lasts(env, start)
    ensures (exists n :: RacesAt(spec, env, start, n, key)) <==> exists k :: RacesIn(spec, k, key)
  {
    hide WellFormed, Compiled, NavigatesByEdges, StartList, Lasts, RacesIn, RacesAt;
    if n :| RacesAt(spec, env, start, n, key) {
      ReachedWhen(spec, env, start, n, key);
      RaceIsActual(spec, env, start, n, key);
    }
    if k :| RacesIn(spec, k, key) {
      RacesReached(spec, env, start, k, key);
      RaceIsActual(spec, env, start, k, key);
    }
  }

  /** Main result. With a period it races exactly if the specification has rivals. */
  lemma RunRacesIff(spec: GraphSpec, env: Env, start: Point, period: nat, key: string)
    requires WellFormed(spec) && Compiled(spec, env.graph) && NavigatesByEdges(env) && start.frontier == StartList(spec)
    requires IsPeriod(spec, period) && Lasts(env, start)
    ensures (exists n :: RacesAt(spec, env, start, n, key)) <==> exists a, b :: Rivals(spec, a, b, key, period)
  {
    hide WellFormed, Compiled, NavigatesByEdges, StartList, IsPeriod, Lasts, Rivals, RacesIn, RacesAt;
    RunRacesIffActual(spec, env, start, key);
    RacesIff(spec, period, key);
  }

  lemma ReachedWhen(spec: GraphSpec, env: Env, start: Point, n: nat, key: string)
    requires RacesAt(spec, env, start, n, key)
    ensures After(env, start, n).Some?
  {
  }

  lemma RacesReached(spec: GraphSpec, env: Env, start: Point, k: nat, key: string)
    requires WellFormed(spec) && Compiled(spec, env.graph) && NavigatesByEdges(env) && start.frontier == StartList(spec)
    requires Lasts(env, start) && RacesIn(spec, k, key)
    ensures After(env, start, k).Some?
  {
    hide WellFormed, Compiled, NavigatesByEdges, StartList, After, Lasts, Actual, Declares;
    LastingPoint(spec, env, start, k);
  }

  /** Every specification with rivals has such a run, through nodes that store nothing. */
  lemma RaceIsReal(spec: GraphSpec, limits: Limits, data: Data, period: nat, key: string)
    requires WellFormed(spec) && IsPeriod(spec, period)
    ensures var env, start := SettingEnv(spec, limits, map[]), Point(data, StartList(spec));
      (exists n :: RacesAt(spec, env, start, n, key)) <==> exists a, b :: Rivals(spec, a, b, key, period)
  {
    hide WellFormed, SettingEnv, StartList, IsPeriod, Lasts, Rivals, RacesAt;
    var env, start := SettingEnv(spec, limits, map[]), Point(data, StartList(spec));
    SettingFits(spec, limits, map[]);
    PassLasts(spec, limits, start);
    RunRacesIff(spec, env, start, period, key);
  }

  // ---- The period --------------------------------------------------------------------------------

  /** Without a node named like the virtual start node the period is zero, and levels agree only if they are
    * the same. */
  lemma NoStartNoPeriod(spec: GraphSpec)
    requires WellFormed(spec) && START !in Ids(spec.nodes)
    ensures IsPeriod(spec, 0)
  {
    hide WellFormed;
    forall w ensures !EndsAt(spec, w, START) {
      if EndsAt(spec, w, START) {
        WalkNodes(spec, w, |w| - 1);
      }
    }
  }

  /** A levelled specification has a period. */
  lemma LevelledHasPeriod(spec: GraphSpec) returns (period: nat)
    requires Levelled(spec)
    ensures IsPeriod(spec, period)
  {
    if w :| EndsAt(spec, w, START) {
      period := |w|;
    } else {
      period := 0;
    }
  }

  // ---- Chains ------------------------------------------------------------------------------------

  /** The live walks of a chain are its beginnings before the first node called like the end. */
  lemma ChainWalk(spec: GraphSpec, c: seq<string>, w: seq<string>)
    requires IsChain(spec, c)
    ensures LiveWalk(spec, w) <==> 0 < |w| <= FirstEnd(c) && w == c[..|w|]
  {
    if LiveWalk(spec, w) {
      forall i | 0 <= i < |w| ensures i < |c| && w[i] == c[i] {
        EntryWalkAlongChain(spec, c, w, i);
      }
      assert |w| <= |c| by {
        EntryWalkAlongChain(spec, c, w, |w| - 1);
      }
      var f := FirstEnd(c);
      assert f < |c| ==> c[f] == END;
    }
    if 0 < |w| <= FirstEnd(c) && w == c[..|w|] {
      forall i | 0 < i < |w| ensures Linked(spec, w[i - 1], w[i]) {
        ChainEdge(spec, c, i - 1);
      }
      forall i | 0 <= i < |w| ensures w[i] != END {
        assert c[..FirstEnd(c)][i] == w[i];
      }
    }
  }

  lemma ChainEnds(spec: GraphSpec, c: seq<string>, w: seq<string>, i: nat)
    requires IsChain(spec, c) && i < FirstEnd(c)
    ensures EndsAt(spec, w, c[i]) <==> w == c[..i + 1]
  {
    ChainWalk(spec, c, w);
    ChainWalk(spec, c, c[..i + 1]);
    hide LiveWalk;
    if EndsAt(spec, w, c[i]) {
      assert c[|w| - 1] == c[i];
    }
  }

  /** The period of a chain is the place of the node named like the virtual start node. */
  lemma ChainPeriod(spec: GraphSpec, c: seq<string>, s: nat)
    requires IsChain(spec, c) && s < FirstEnd(c) && c[s] == START
    ensures IsPeriod(spec, s + 1)
  {
    hide IsChain;
    forall w ensures EndsAt(spec, w, START) <==> w == c[..s + 1] {
      ChainEnds(spec, c, w, s);
    }
    assert EndsAt(spec, c[..s + 1], START);
  }

  lemma ChainNoPeriod(spec: GraphSpec, c: seq<string>)
    requires IsChain(spec, c) && !StartBeforeEnd(c)
    ensures IsPeriod(spec, 0)
  {
    forall w ensures !EndsAt(spec, w, START) {
      ChainWalk(spec, c, w);
      if 0 < |w| <= FirstEnd(c) {
        assert c[..FirstEnd(c)][|w| - 1] == c[|w| - 1];
      }
    }
  }

  lemma ChainMeet(spec: GraphSpec, c: seq<string>, period: nat, i: nat, j: nat)
    requires WellFormed(spec) && IsChain(spec, c) && IsPeriod(spec, period) && i < FirstEnd(c) && j < FirstEnd(c)
    ensures (exists k :: Meet(spec, k, c[i], c[j])) <==> Agree(i, j, period)
  {
    MeetIff(spec, period, c[i], c[j]);
    hide WellFormed, IsChain, IsPeriod, Agree, Meet;
    ChainEnds(spec, c, c[..i + 1], i);
    ChainEnds(spec, c, c[..j + 1], j);
    if Agree(i, j, period) {
      assert WalksAgree(spec, c[..i + 1], c[..j + 1], c[i], c[j], period);
    }
    if v, w :| WalksAgree(spec, v, w, c[i], c[j], period) {
      ChainEnds(spec, c, v, i);
      ChainEnds(spec, c, w, j);
    }
  }

  /** Main result. Two nodes of a chain share a superstep exactly if a node named like the virtual start node
    * leads back and their places agree modulo the length of the way to it. */
  lemma ChainSharing(spec: GraphSpec, c: seq<string>, i: nat, j: nat)
    requires WellFormed(spec) && IsChain(spec, c) && i < j < FirstEnd(c)
    ensures !StartBeforeEnd(c) ==> forall k :: !Meet(spec, k, c[i], c[j])
    ensures forall s: nat :: s < FirstEnd(c) && c[s] == START ==>
      ((exists k :: Meet(spec, k, c[i], c[j])) <==> i % (s + 1) == j % (s + 1))
  {
    hide WellFormed, IsChain, IsPeriod, Agree, Meet, StartBeforeEnd;
    if !StartBeforeEnd(c) {
      ChainNoPeriod(spec, c);
      ChainMeet(spec, c, 0, i, j);
      AgreeIsModulo(i, j, 0);
    }
    forall s: nat | s < FirstEnd(c) && c[s] == START
      ensures (exists k :: Meet(spec, k, c[i], c[j])) <==> i % (s + 1) == j % (s + 1)
    {
      ChainPeriod(spec, c, s);
      ChainMeet(spec, c, s + 1, i, j);
      AgreeIsModulo(i, j, s + 1);
    }
  }

  // ---- An accepted chain that races --------------------------------------------------------------

  function Writing(id: string): NodeSpec {
    NodeSpec(id, StateTransform, false, Obj(map["operations" := Arr([SetOp("k")])]))
  }

  /** The first and the last node write the same key, and the one between them leads back. */
  function Back(): GraphSpec {
    GraphSpec("g", "e", [Writing("e"), Idle(START), Writing("x")],
              [EdgeSpec("e", START), EdgeSpec(START, "x"), EdgeSpec("x", "END")], None, None, map[])
  }

  function BackNodes(): seq<string> {
    ["e", START, "x"]
  }

  lemma BackParts()
    ensures Ids(Back().nodes) == BackNodes() && Links(BackNodes()) == Back().edges
  {
    var ids, edges := Ids(Back().nodes), Back().edges;
    assert ids[0] == "e" && ids[1] == START && ids[2] == "x";
    assert edges[0] == EdgeSpec("e", START) && edges[1] == EdgeSpec(START, "x") && edges[2] == EdgeSpec("x", "END");
  }

  lemma BackEndpoints()
    ensures forall i :: 0 <= i < |Back().edges| ==> EndpointsOk(Back().nodes, Back().edges[i])
  {
    BackParts();
    var c := BackNodes();
    assert c[0] == "e" && c[1] == START && c[2] == "x";
    hide Links, Ids;
    forall i | 0 <= i < |Back().edges| ensures EndpointsOk(Back().nodes, Back().edges[i]) {
      assert i == 0 || i == 1 || i == 2;
    }
  }

  lemma BackAdmissible()
    ensures AllAdmissible(Back())
  {
  }

  lemma BackWellFormed()
    ensures WellFormed(Back())
  {
    BackEndpoints();
    BackParts();
    hide EndpointsOk, Links;
    assert BackNodes()[0] == "e" && BackNodes()[1] == START && BackNodes()[2] == "x";
  }

  lemma BackIsChain()
    ensures IsChain(Back(), BackNodes())
  {
    BackParts();
    hide Links, Ids;
  }

  lemma WritingKeys(id: string)
    ensures WriteKeys(Writing(id)) == ["k"] && Occurrences(WriteKeys(Writing(id)), "k") == 1
  {
    var op := SetOp("k");
    assert StringField(op, "path") == Some("k") && [op][..0] == [] && OperationPaths([]) == [];
    assert OperationPaths([op]) == ["k"];
    hide OperationPaths, StringField, Occurrences;
    SingleWrite(Writing(id), "k");
  }

  lemma BackWrites()
    ensures WriteKeys(Writing("e")) == ["k"] && WriteKeys(Writing("x")) == ["k"] && WriteKeys(Idle(START)) == []
    ensures Declares(Back(), "e", "k") && Declares(Back(), "x", "k")
  {
    WritingKeys("e");
    WritingKeys("x");
    assert WriteKeys(Idle(START)) == [];
    hide WriteKeys, Occurrences;
    assert Back().nodes[0] == Writing("e") && Back().nodes[2] == Writing("x");
  }

  lemma OrderedEnds(spec: GraphSpec)
    requires |spec.nodes| == 3 && WriteKeys(spec.nodes[1]) == [] && Reaches(Adj(spec), 0, 2)
    requires |WriteKeys(spec.nodes[0])| <= 1 && |WriteKeys(spec.nodes[2])| <= 1
    ensures !HasConflict(spec)
  {
    hide WriteKeys, Reaches, Adj;
    forall key: string, a: nat, b: nat ensures !ConflictOn(spec, key, a, b) {
      if WritePair(spec.nodes, key, a, b) {
        SingleWrite(spec.nodes[a], key);
        SingleWrite(spec.nodes[b], key);
      }
    }
  }

  lemma BackAccepted()
    ensures !HasConflict(Back())
  {
    BackWellFormed();
    BackWrites();
    var spec := Back();
    var ids := Ids(spec.nodes);
    assert ids[0] == "e" && ids[1] == START && ids[2] == "x";
    hide WellFormed, WriteKeys, Declares, HasConflict, Adj, IsChain, AllAdmissible;
    assert spec.edges[0] == EdgeSpec("e", START) && spec.edges[1] == EdgeSpec(START, "x");
    assert Linked(spec, "e", START) && Linked(spec, START, "x");
    LinkIsPair(spec, "e", START);
    LinkIsPair(spec, START, "x");
    EdgeReaches(Adj(spec), 0, 1);
    EdgeReaches(Adj(spec), 1, 2);
    ReachesTransitive(Adj(spec), 0, 1, 2);
    OrderedEnds(spec);
  }

  lemma BackFirstEnd()
    ensures FirstEnd(BackNodes()) == 3
  {
    var c := BackNodes();
    assert c[1..] == [START, "x"] && c[1..][1..] == ["x"];
    assert FirstEnd([]) == 0 && ["x"][1..] == [];
    assert FirstEnd(["x"]) == 1 && [START, "x"][1..] == ["x"];
    assert FirstEnd([START, "x"]) == 2;
  }

  /** The entry runs again after the node in the middle, together with the last node. */
  lemma BackMeets()
    ensures RacesIn(Back(), 2, "k")
  {
    hide WellFormed, IsChain, AllAdmissible, Declares, Actual, LiveWalk, IsPeriod, FirstEnd, Back;
    var spec, c := Back(), BackNodes();
    BackWellFormed();
    BackIsChain();
    BackWrites();
    BackFirstEnd();
    ChainPeriod(spec, c, 1);
    ChainEnds(spec, c, c[..1], 0);
    ChainEnds(spec, c, c[..3], 2);
    RunsInLap(spec, 2, c[..1], 1);
    RunsInLap(spec, 2, c[..3], 0);
    assert Lap(0, 1, 2) == 2 && Lap(2, 0, 2) == 2;
    TwoDeclare(spec, Actual(spec, 2), "k", "e", "x");
  }

  /** The chain is accepted, levelled and eligible, and no two of its writers share a level. */
  lemma BackLooksSafe()
    ensures WellFormed(Back()) && !HasConflict(Back()) && Levelled(Back()) && AllAdmissible(Back())
    ensures IsChain(Back(), BackNodes()) && forall key :: !SharedLevel(Back(), key)
  {
    hide WellFormed, HasConflict, AllAdmissible, IsChain, Levelled, SharedLevel, Back;
    BackWellFormed();
    BackAdmissible();
    BackIsChain();
    BackAccepted();
    ChainLevelled(Back(), BackNodes());
  }

  /** A levelled, accepted specification races only in runs that do not follow the edges. */
  lemma RaceLeavesEdges(spec: GraphSpec, env: Env, start: Point, n: nat, key: string)
    requires WellFormed(spec) && !HasConflict(spec) && Levelled(spec) && key !in spec.reducers
    requires RacesAt(spec, env, start, n, key)
    ensures !FollowsEdges(spec, env, start)
  {
    hide WellFormed, HasConflict, Levelled, FollowsEdges, RacesOn, After;
    if FollowsEdges(spec, env, start) {
      FollowingNoRace(spec, env, start, n, key);
    }
  }

  /** But every run that follows its edges races in the third superstep. */
  lemma BackRaces(env: Env, start: Point)
    requires Compiled(Back(), env.graph) && NavigatesByEdges(env) && start.frontier == StartList(Back())
    requires After(env, start, 2).Some?
    ensures RacesAt(Back(), env, start, 2, "k") && !FollowsEdges(Back(), env, start)
  {
    NoReducers();
    hide WellFormed, HasConflict, AllAdmissible, IsChain, Compiled, NavigatesByEdges, StartList, After, Levelled,
      SharedLevel, FollowsEdges, RacesAt, RacesIn, Back;
    BackLooksSafe();
    BackMeets();
    RaceIsActual(Back(), env, start, 2, "k");
    RaceLeavesEdges(Back(), env, start, 2, "k");
  }

  lemma NoReducers()
    ensures "k" !in Back().reducers
  {
  }

  /** There is such a run: nodes that store nothing get that far. */
  lemma BackRuns(limits: Limits, data: Data)
    ensures var env, start := SettingEnv(Back(), limits, map[]), Point(data, StartList(Back()));
      RacesAt(Back(), env, start, 2, "k")
  {
    hide WellFormed, AllAdmissible, SettingEnv, StartList, RacesIn, Back;
    var env, start := SettingEnv(Back(), limits, map[]), Point(data, StartList(Back()));
    BackWellFormed();
    BackMeets();
    SettingFits(Back(), limits, map[]);
    PassLasts(Back(), limits, start);
    RacesReached(Back(), env, start, 2, "k");
    RaceIsActual(Back(), env, start, 2, "k");
  }
}

/** What a schedule of parallel branches looks like from outside. */
module Schedules {
  import opened Values
  import opened AgentStates
  import opened Graphs
  import opened Sorting
  import opened EngineSpec
  import opened Branches
  import opened CheckpointStore

  /** A branch is spawned for a frontier position with a fork of the state, and joined when it has
    * finished. After a failure the branches left are told to abort and joined one by one; if a branch
    * cannot be spawned the set of branches is dropped, which tells them to abort too but joins none. */
  datatype Event =
    | Spawned(position: nat, fork: Data)
    | Joined(position: nat)
    | Broken(position: nat)
    | AbortAll
    | Drained(position: nat)
    | Dropped

  /** The branches in flight after one more event. */
  function LiveAfter(before: set<nat>, e: Event): set<nat> {
    match e
    case Spawned(i, _) => before + {i}
    case Joined(i) => before - {i}
    case Broken(i) => before - {i}
    case AbortAll => before
    case Drained(i) => before - {i}
    case Dropped => before
  }

  /** The branches in flight after the events. */
  function Live(events: seq<Event>): set<nat> {
    if events == [] then {} else LiveAfter(Live(events[..|events| - 1]), events[|events| - 1])
  }

  predicate GivesUp(e: Event) {
    e.AbortAll? || e.Dropped?
  }

  predicate EndsDropped(events: seq<Event>) {
    events != [] && events[|events| - 1] == Dropped
  }

  /** Once the superstep is given up its branches are drained, and nothing is spawned any more. */
  ghost predicate Quiet(events: seq<Event>) {
    forall k, l :: 0 <= k < l < |events| && GivesUp(events[k]) ==> events[l].Drained?
  }

  function SpawnCount(events: seq<Event>): nat {
    if events == [] then 0
    else SpawnCount(events[..|events| - 1]) + if events[|events| - 1].Spawned? then 1 else 0
  }

  /** Positions are spawned in order, each once, each with a fork of the snapshot, and never more
    * than `limit` branches are in flight. */
  ghost predicate Bounded(events: seq<Event>, snapshot: Data, limit: nat) {
    && (forall k :: 0 <= k <= |events| ==> |Live(events[..k])| <= limit)
    && (forall k :: 0 <= k < |events| && events[k].Spawned? ==>
          events[k].fork == snapshot && events[k].position == SpawnCount(events[..k]))
  }

  lemma {:induction false} Extend(events: seq<Event>, e: Event)
    ensures (events + [e])[..|events|] == events && (events + [e])[|events|] == e
    ensures Live(events + [e]) == LiveAfter(Live(events), e)
    ensures SpawnCount(events + [e]) == SpawnCount(events) + if e.Spawned? then 1 else 0
  {
    assert (events + [e])[..|events|] == events;
  }

  lemma {:induction false} ExtendBounded(events: seq<Event>, e: Event, snapshot: Data, limit: nat)
    requires Bounded(events, snapshot, limit) && |Live(events + [e])| <= limit
    requires e.Spawned? ==> e.fork == snapshot && e.position == SpawnCount(events)
    ensures Bounded(events + [e], snapshot, limit)
  {
    var all := events + [e];
    forall k | 0 <= k <= |all| ensures |Live(all[..k])| <= limit {
      if k <= |events| {
        assert all[..k] == events[..k];
      } else {
        assert all[..k] == all;
      }
    }
    forall k | 0 <= k < |all| && all[k].Spawned?
      ensures all[k].fork == snapshot && all[k].position == SpawnCount(all[..k])
    {
      assert all[..k] == events[..k];
    }
  }

  /** The schedule has only got longer. */
  ghost predicate Extends(before: seq<Event>, after: seq<Event>) {
    before <= after
  }

  lemma ExtendsMore(before: seq<Event>, middle: seq<Event>, after: seq<Event>)
    requires Extends(before, middle) && Extends(middle, after)
    ensures Extends(before, after)
  {
  }

  lemma ExtendsBy(events: seq<Event>, more: seq<Event>)
    ensures Extends(events, events + more) && Extends(events, events)
  {
  }

  /** At some moment that many branches were in flight. */
  ghost predicate Peaks(events: seq<Event>, count: nat) {
    exists k :: 0 <= k <= |events| && |Live(events[..k])| == count
  }

  lemma PeakNow(events: seq<Event>)
    ensures Peaks(events, |Live(events)|)
  {
    assert events[..|events|] == events;
  }

  lemma PeakStays(before: seq<Event>, after: seq<Event>, count: nat)
    requires Peaks(before, count) && Extends(before, after)
    ensures Peaks(after, count)
  {
    var k :| 0 <= k <= |before| && |Live(before[..k])| == count;
    assert after[..k] == before[..k];
  }

  // ---- The state of the scheduler -----------------------------------------------------

  /** The positions before `p` are either in flight or joined; `joined` lists the latter in the
    * order they finished, and `results` their results. */
  ghost predicate Progress(frontier: seq<string>, p: nat, live: set<nat>, joined: seq<nat>,
                           results: seq<BranchResult>) {
    && p <= |frontier| && |joined| == |results| && NoDup(joined)
    && (forall i :: i in live ==> i < p)
    && (forall k :: 0 <= k < |joined| ==> joined[k] < p && joined[k] !in live)
    && |live| + |joined| == p
  }

  /** Finished branches hold the results of their families. */
  ghost predicate ResultsRight(env: Env, data: Data, frontier: seq<string>, joined: seq<nat>,
                               results: seq<BranchResult>) {
    && |joined| == |results|
    && forall k :: 0 <= k < |joined| ==>
         && joined[k] < |frontier| && frontier[joined[k]] in env.graph.nodes
         && results[k].name == frontier[joined[k]]
         && FamilyFrom(env, frontier[joined[k]], data, 0) == FamilyOk(results[k].data, results[k].output)
  }

  lemma JoinProgress(frontier: seq<string>, p: nat, live: set<nat>, joined: seq<nat>, results: seq<BranchResult>,
                     i: nat, r: BranchResult)
    requires Progress(frontier, p, live, joined, results) && i in live
    ensures Progress(frontier, p, live - {i}, joined + [i], results + [r])
  {
  }

  lemma SpawnProgress(frontier: seq<string>, p: nat, live: set<nat>, joined: seq<nat>, results: seq<BranchResult>)
    requires Progress(frontier, p, live, joined, results) && p < |frontier|
    ensures Progress(frontier, p + 1, live + {p}, joined, results) && p !in live
  {
  }

  /** When nothing is pending or in flight, the results are a rearrangement of what the frontier
    * yields. */
  lemma AllJoined(env: Env, data: Data, frontier: seq<string>, joined: seq<nat>, results: seq<BranchResult>)
    requires Progress(frontier, |frontier|, {}, joined, results)
    requires ResultsRight(env, data, frontier, joined, results)
    ensures AllSucceed(env, data, frontier)
    ensures multiset(results) == multiset(BranchResults(env, data, frontier))
  {
    forall i | 0 <= i < |frontier|
      ensures frontier[i] in env.graph.nodes && FamilyFrom(env, frontier[i], data, 0).FamilyOk?
    {
      var k := Pigeonhole(joined, |frontier|, i);
    }
    var all := BranchResults(env, data, frontier);
    forall k | 0 <= k < |results| ensures results[k] == Pick(all, joined)[k] {
      assert all[joined[k]] == ResultOf(env, data, frontier[joined[k]]);
    }
    assert results == Pick(all, joined);
    PickPermutes(all, joined);
  }

  /** The attempts going on in the branches in flight. */
  ghost function OpenIn(inFlight: map<nat, Branch>): set<AttemptId> {
    set i, id | i in inFlight && id in Open(inFlight[i]) :: id
  }

  lemma OpenSplit(inFlight: map<nat, Branch>, i: nat, b: Branch)
    requires i in inFlight
    ensures OpenIn(inFlight) == OpenIn(inFlight - {i}) + Open(inFlight[i])
    ensures OpenIn(inFlight[i := b]) == OpenIn(inFlight - {i}) + Open(b)
  {
    var rest, next := inFlight - {i}, inFlight[i := b];
    forall id ensures id in OpenIn(inFlight) <==> id in OpenIn(rest) || id in Open(inFlight[i]) {
      if id in OpenIn(inFlight) {
        var j :| j in inFlight && id in Open(inFlight[j]);
        if j != i {
          assert rest[j] == inFlight[j];
        }
      }
      if id in OpenIn(rest) {
        var j :| j in rest && id in Open(rest[j]);
        assert inFlight[j] == rest[j];
      }
    }
    forall id ensures id in OpenIn(next) <==> id in OpenIn(rest) || id in Open(b) {
      if id in OpenIn(next) {
        var j :| j in next && id in Open(next[j]);
        if j != i {
          assert rest[j] == next[j];
        }
      }
      if id in OpenIn(rest) {
        var j :| j in rest && id in Open(rest[j]);
        assert next[j] == rest[j];
      }
      if id in Open(b) {
        assert next[i] == b;
      }
    }
  }

  /** A new branch has no attempt open yet. */
  lemma OpenSpawn(inFlight: map<nat, Branch>, i: nat, b: Branch)
    requires i !in inFlight && Open(b) == {}
    ensures OpenIn(inFlight[i := b]) == OpenIn(inFlight)
  {
    var next := inFlight[i := b];
    forall id ensures id in OpenIn(next) <==> id in OpenIn(inFlight) {
      if id in OpenIn(inFlight) {
        var j :| j in inFlight && id in Open(inFlight[j]);
        assert next[j] == inFlight[j];
      }
    }
  }

  // ---- Node starts ------------------------------------------------------------------------

  /** How many trials the nodes from a frontier position on may take. */
  function CostFrom(g: Graph, frontier: seq<string>, p: nat): nat
    decreases |frontier| - p
  {
    if p >= |frontier| then 0 else MaxAttempts(g, frontier[p]) + CostFrom(g, frontier, p + 1)
  }

  function Cost(g: Graph, frontier: seq<string>): nat {
    CostFrom(g, frontier, 0)
  }

  /** How many trials the first `n` supersteps may start, the failing one included. */
  function Work(env: Env, start: Point, n: nat): nat {
    if n == 0 then 0
    else
      Work(env, start, n - 1) +
        match After(env, start, n - 1)
        case Some(p) => Cost(env.graph, p.frontier)
        case None => 0
  }

  lemma WorkStep(env: Env, start: Point, n: nat, p: Point)
    requires After(env, start, n) == Some(p)
    ensures Work(env, start, 0) == 0
    ensures Work(env, start, n + 1) == Work(env, start, n) + Cost(env.graph, p.frontier)
  {
  }

  lemma {:induction false} WorkGrows(env: Env, start: Point, m: nat, n: nat)
    requires m <= n
    ensures Work(env, start, m) <= Work(env, start, n)
    decreases n - m
  {
    hide After, Cost;
    if m < n {
      WorkGrows(env, start, m, n - 1);
    }
  }

  // ---- The invariant of the scheduler ------------------------------------------------------

  /** A branch in flight at a frontier position is on its way to what its node yields. */
  ghost predicate BranchInv(env: Env, v: View, data: Data, frontier: seq<string>, i: nat, b: Branch) {
    && i < |frontier| && b.name == frontier[i] && b.name in env.graph.nodes && !Terminal(b)
    && OnCourse(env, FamilyFrom(env, frontier[i], data, 0), b)
    && LogInv(b) && AttemptKnown(v, b)
  }

  ghost predicate FlightInv(env: Env, v: View, data: Data, frontier: seq<string>, inFlight: map<nat, Branch>) {
    forall i :: i in inFlight ==> BranchInv(env, v, data, frontier, i, inFlight[i])
  }

  ghost predicate Counted(events: seq<Event>, data: Data, width: nat, p: nat, live: set<nat>) {
    Live(events) == live && SpawnCount(events) == p && Bounded(events, data, width)
  }

  ghost predicate EventsInv(events: seq<Event>, data: Data, width: nat, p: nat, live: set<nat>) {
    Counted(events, data, width, p, live) && forall k :: 0 <= k < |events| ==> !GivesUp(events[k])
  }

  ghost predicate EndingInv(events: seq<Event>, data: Data, width: nat, p: nat, live: set<nat>) {
    Counted(events, data, width, p, live) && Quiet(events)
  }

  /** The scheduler after spawning the first `p` positions: the branches in flight, the joined
    * positions with their results in the order they finished, and what happened so far. */
  datatype Scheduler = Scheduler(
    p: nat, inFlight: map<nat, Branch>, joined: seq<nat>, results: seq<BranchResult>, events: seq<Event>)

  ghost predicate SchedInv(env: Env, v: View, data: Data, width: nat, frontier: seq<string>, s: Scheduler) {
    && Progress(frontier, s.p, s.inFlight.Keys, s.joined, s.results)
    && ResultsRight(env, data, frontier, s.joined, s.results)
    && FlightInv(env, v, data, frontier, s.inFlight)
    && ViewOk(v, OpenIn(s.inFlight))
    && EventsInv(s.events, data, width, s.p, s.inFlight.Keys)
  }

  /** A superstep that is over: nothing is spawned any more. */
  ghost predicate Halted(data: Data, width: nat, frontier: seq<string>, s: Scheduler) {
    s.p <= |frontier| && EndingInv(s.events, data, width, s.p, s.inFlight.Keys)
  }

  /** A superstep that was given up while the branches left are drained; `lost` are attempts that stay open
    * in the store for good. */
  ghost predicate DrainInv(env: Env, v: View, data: Data, width: nat, frontier: seq<string>, s: Scheduler,
                           lost: set<AttemptId>) {
    && Halted(data, width, frontier, s) && FlightInv(env, v, data, frontier, s.inFlight)
    && ViewOk(v, OpenIn(s.inFlight) + lost)
  }

  function Spawn(s: Scheduler, b: Branch, data: Data): Scheduler {
    s.(p := s.p + 1, inFlight := s.inFlight[s.p := b], events := s.events + [Spawned(s.p, data)])
  }

  function Join(s: Scheduler, i: nat, r: BranchResult): Scheduler {
    s.(inFlight := s.inFlight - {i}, joined := s.joined + [i], results := s.results + [r], events := s.events + [Joined(i)])
  }

  /** A failed branch is joined, and its siblings are told to abort. */
  function GiveUp(s: Scheduler, i: nat): Scheduler {
    s.(inFlight := s.inFlight - {i}, events := s.events + [Broken(i)] + [AbortAll])
  }

  function Drain(s: Scheduler, i: nat): Scheduler {
    s.(inFlight := s.inFlight - {i}, events := s.events + [Drained(i)])
  }

  function Drop(s: Scheduler): Scheduler {
    s.(events := s.events + [Dropped])
  }

  /** How many more trials the superstep may start. */
  function StartsAhead(g: Graph, frontier: seq<string>, s: Scheduler): nat {
    Total(s.inFlight, Starts(g), |frontier|) + CostFrom(g, frontier, s.p)
  }

  function StepsAhead(g: Graph, frontier: seq<string>, s: Scheduler): nat {
    Total(s.inFlight, Steps(g), |frontier|)
  }

  lemma NothingSpawned(env: Env, v: View, data: Data, width: nat, frontier: seq<string>)
    requires ViewOk(v, {})
    ensures var s := Scheduler(0, map[], [], [], []);
      && SchedInv(env, v, data, width, frontier, s)
      && StartsAhead(env.graph, frontier, s) == Cost(env.graph, frontier)
  {
    assert OpenIn(map[]) == {};
    var none: seq<Event> := [];
    assert none[..0] == [];
    TotalNone(Starts(env.graph), |frontier|);
  }

  lemma SpawnEvents(events: seq<Event>, data: Data, width: nat, p: nat, live: set<nat>)
    requires EventsInv(events, data, width, p, live) && |live| < width && p !in live
    ensures EventsInv(events + [Spawned(p, data)], data, width, p + 1, live + {p})
  {
    Extend(events, Spawned(p, data));
    ExtendBounded(events, Spawned(p, data), data, width);
  }

  /** Events that take a branch out, or none. */
  lemma CountedNext(events: seq<Event>, data: Data, width: nat, p: nat, live: set<nat>, e: Event)
    requires Counted(events, data, width, p, live) && !e.Spawned?
    ensures Counted(events + [e], data, width, p, LiveAfter(live, e))
  {
    Extend(events, e);
    assert events[..|events|] == events;
    assert |Live(events[..|events|])| <= width;
    SubsetSize(LiveAfter(live, e), live);
    ExtendBounded(events, e, data, width);
  }

  lemma JoinEvents(events: seq<Event>, data: Data, width: nat, p: nat, live: set<nat>, i: nat)
    requires EventsInv(events, data, width, p, live) && i in live
    ensures EventsInv(events + [Joined(i)], data, width, p, live - {i})
  {
    CountedNext(events, data, width, p, live, Joined(i));
  }

  lemma GiveUpEvents(events: seq<Event>, data: Data, width: nat, p: nat, live: set<nat>, i: nat)
    requires EventsInv(events, data, width, p, live) && i in live
    ensures EndingInv(events + [Broken(i)] + [AbortAll], data, width, p, live - {i})
  {
    CountedNext(events, data, width, p, live, Broken(i));
    CountedNext(events + [Broken(i)], data, width, p, live - {i}, AbortAll);
  }

  lemma DrainEvents(events: seq<Event>, data: Data, width: nat, p: nat, live: set<nat>, i: nat)
    requires EndingInv(events, data, width, p, live) && i in live
    ensures EndingInv(events + [Drained(i)], data, width, p, live - {i})
  {
    CountedNext(events, data, width, p, live, Drained(i));
  }

  /** Dropping the set leaves its branches in flight. */
  lemma DropHalts(env: Env, v: View, data: Data, width: nat, frontier: seq<string>, s: Scheduler)
    requires SchedInv(env, v, data, width, frontier, s)
    ensures Halted(data, width, frontier, Drop(s)) && Live(Drop(s).events) == s.inFlight.Keys
  {
    CountedNext(s.events, data, width, s.p, s.inFlight.Keys, Dropped);
  }

  lemma PendingBounded(env: Env, v: View, data: Data, width: nat, frontier: seq<string>, s: Scheduler)
    requires SchedInv(env, v, data, width, frontier, s)
    ensures s.p <= |frontier|
  {
  }

  lemma NewBranchInv(env: Env, v: View, data: Data, frontier: seq<string>, inFlight: map<nat, Branch>, p: nat)
    requires FlightInv(env, v, data, frontier, inFlight) && p !in inFlight
    requires p < |frontier| && frontier[p] in env.graph.nodes
    ensures FlightInv(env, v, data, frontier, inFlight[p := NewBranch(frontier[p], data)])
  {
    StartOnCourse(env, frontier[p], data);
    assert inFlight - {p} == inFlight;
    FlightExtended(env, v, v, data, frontier, inFlight, p, NewBranch(frontier[p], data));
  }

  lemma SpawnKeepsInv(env: Env, v: View, data: Data, width: nat, frontier: seq<string>, s: Scheduler)
    requires SchedInv(env, v, data, width, frontier, s)
    requires s.p < |frontier| && |s.inFlight| < width && frontier[s.p] in env.graph.nodes
    ensures SchedInv(env, v, data, width, frontier, Spawn(s, NewBranch(frontier[s.p], data), data))
  {
    hide FlightInv, FamilyFrom, Live, SpawnCount, Bounded;
    var b := NewBranch(frontier[s.p], data);
    SpawnProgress(frontier, s.p, s.inFlight.Keys, s.joined, s.results);
    assert s.inFlight[s.p := b].Keys == s.inFlight.Keys + {s.p};
    OpenSpawn(s.inFlight, s.p, b);
    SpawnEvents(s.events, data, width, s.p, s.inFlight.Keys);
    NewBranchInv(env, v, data, frontier, s.inFlight, s.p);
  }

  /** A spawn moves the trials of one node from the pending part to the branches. */
  lemma SpawnStarts(env: Env, v: View, data: Data, width: nat, frontier: seq<string>, s: Scheduler)
    requires SchedInv(env, v, data, width, frontier, s) && s.p < |frontier|
    ensures var s' := Spawn(s, NewBranch(frontier[s.p], data), data);
      |s'.inFlight| == |s.inFlight| + 1 && StartsAhead(env.graph, frontier, s') == StartsAhead(env.graph, frontier, s)
  {
    hide FlightInv, FamilyFrom, EventsInv, ViewOk;
    SpawnProgress(frontier, s.p, s.inFlight.Keys, s.joined, s.results);
    assert s.inFlight[s.p := NewBranch(frontier[s.p], data)].Keys == s.inFlight.Keys + {s.p};
    TotalUpdate(s.inFlight, Starts(env.graph), |frontier|, s.p, NewBranch(frontier[s.p], data));
  }

  /** A step of one branch keeps the attempts of the others. */
  lemma FlightExtended(env: Env, v: View, v': View, data: Data, frontier: seq<string>, before: map<nat, Branch>,
                       i: nat, b: Branch)
    requires FlightInv(env, v, data, frontier, before - {i}) && BranchInv(env, v', data, frontier, i, b)
    requires AttemptsStay(v.store, v'.store) && v'.run == v.run && v'.configured == v.configured
    ensures FlightInv(env, v', data, frontier, before[i := b])
  {
    var after := before[i := b];
    forall j | j in after ensures BranchInv(env, v', data, frontier, j, after[j]) {
      assert j != i ==> (before - {i})[j] == after[j];
    }
  }

  lemma SteppedInv(env: Env, v: View, v': View, data: Data, width: nat, frontier: seq<string>, s: Scheduler, i: nat,
                   b: Branch)
    requires SchedInv(env, v, data, width, frontier, s) && i in s.inFlight
    requires BranchInv(env, v', data, frontier, i, b)
    requires AttemptsStay(v.store, v'.store) && v'.run == v.run && v'.configured == v.configured
    requires ViewOk(v', OpenIn(s.inFlight - {i}) + Open(b))
    ensures SchedInv(env, v', data, width, frontier, s.(inFlight := s.inFlight[i := b]))
  {
    assert s.inFlight[i := b].Keys == s.inFlight.Keys;
    assert FlightInv(env, v, data, frontier, s.inFlight - {i});
    OpenSplit(s.inFlight, i, b);
    FlightExtended(env, v, v', data, frontier, s.inFlight, i, b);
  }

  lemma JoinedInv(env: Env, v: View, v': View, data: Data, width: nat, frontier: seq<string>, s: Scheduler, i: nat,
                  b: Branch)
    requires SchedInv(env, v, data, width, frontier, s) && i in s.inFlight
    requires i < |frontier| && b.name == frontier[i] && b.phase.Succeeded?
    requires OnCourse(env, FamilyFrom(env, frontier[i], data, 0), b)
    requires AttemptsStay(v.store, v'.store) && v'.run == v.run && v'.configured == v.configured
    requires ViewOk(v', OpenIn(s.inFlight - {i}) + Open(b))
    ensures SchedInv(env, v', data, width, frontier, Join(s, i, BranchResult(b.name, b.data, b.phase.output)))
  {
    hide FlightInv, Live, SpawnCount, Bounded, EventsInv, Progress, ViewOk, FamilyFrom;
    var r := BranchResult(b.name, b.data, b.phase.output);
    assert OpenIn(s.inFlight - {i}) + Open(b) == OpenIn(s.inFlight - {i});
    CourseEnds(env, FamilyFrom(env, frontier[i], data, 0), b);
    JoinProgress(frontier, s.p, s.inFlight.Keys, s.joined, s.results, i, r);
    assert (s.inFlight - {i}).Keys == s.inFlight.Keys - {i};
    JoinEvents(s.events, data, width, s.p, s.inFlight.Keys, i);
    FlightRest(env, v, v', data, frontier, s.inFlight, i);
  }

  lemma FlightRest(env: Env, v: View, v': View, data: Data, frontier: seq<string>, inFlight: map<nat, Branch>, i: nat)
    requires FlightInv(env, v, data, frontier, inFlight)
    requires AttemptsStay(v.store, v'.store) && v'.run == v.run && v'.configured == v.configured
    ensures FlightInv(env, v', data, frontier, inFlight - {i})
  {
    forall j | j in inFlight - {i} ensures BranchInv(env, v', data, frontier, j, inFlight[j]) {
      assert BranchInv(env, v, data, frontier, j, inFlight[j]);
    }
  }

  /** What a step of one branch does to the sums over all branches. */
  lemma Weights(g: Graph, frontier: seq<string>, s: Scheduler, i: nat, b: Branch)
    requires i in s.inFlight && i < |frontier|
    ensures var s' := s.(inFlight := s.inFlight[i := b]);
      && StartsAhead(g, frontier, s') == StartsAhead(g, frontier, s) + StartsLeft(g, b) - StartsLeft(g, s.inFlight[i])
      && StepsAhead(g, frontier, s') == StepsAhead(g, frontier, s) + StepsLeft(g, b) - StepsLeft(g, s.inFlight[i])
  {
    TotalUpdate(s.inFlight, Starts(g), |frontier|, i, b);
    TotalUpdate(s.inFlight, Steps(g), |frontier|, i, b);
  }

  /** And when a branch is taken out. */
  lemma WeightsWithout(g: Graph, frontier: seq<string>, s: Scheduler, i: nat, s': Scheduler)
    requires i in s.inFlight && i < |frontier| && s'.inFlight == s.inFlight - {i} && s'.p == s.p
    ensures StartsAhead(g, frontier, s') == StartsAhead(g, frontier, s) - StartsLeft(g, s.inFlight[i])
    ensures StepsAhead(g, frontier, s') == StepsAhead(g, frontier, s) - StepsLeft(g, s.inFlight[i])
    ensures |s'.inFlight| == |s.inFlight| - 1
  {
    TotalRemove(s.inFlight, Starts(g), |frontier|, i);
    TotalRemove(s.inFlight, Steps(g), |frontier|, i);
    assert (s.inFlight - {i}).Keys == s.inFlight.Keys - {i};
  }

  /** What a branch in flight brings to its next step. */
  lemma InFlightReady(env: Env, v: View, data: Data, width: nat, frontier: seq<string>, s: Scheduler, i: nat)
    requires SchedInv(env, v, data, width, frontier, s) && i in s.inFlight
    ensures i < |frontier| && frontier[i] in env.graph.nodes
    ensures var b := s.inFlight[i];
      && b.name == frontier[i] && !Terminal(b) && OnCourse(env, FamilyFrom(env, frontier[i], data, 0), b)
      && LogInv(b) && AttemptKnown(v, b) && ViewOk(v, OpenIn(s.inFlight - {i}) + Open(b))
  {
    hide FamilyFrom, Remaining, LogInv;
    assert BranchInv(env, v, data, frontier, i, s.inFlight[i]);
    OpenSplit(s.inFlight, i, s.inFlight[i]);
  }

  /** A branch in flight has taken a step. */
  ghost predicate Stepped(env: Env, v: View, v': View, data: Data, width: nat, frontier: seq<string>, s: Scheduler,
                          i: nat, b: Branch)
  {
    && SchedInv(env, v, data, width, frontier, s) && i in s.inFlight
    && i < |frontier| && frontier[i] in env.graph.nodes && b.name == frontier[i]
    && OnCourse(env, FamilyFrom(env, frontier[i], data, 0), b) && LogInv(b) && AttemptKnown(v', b)
    && AttemptsStay(v.store, v'.store) && v'.run == v.run && v'.configured == v.configured
    && ViewOk(v', OpenIn(s.inFlight - {i}) + Open(if StoreFailed(b) then s.inFlight[i] else b))
  }

  /** If it is not finished, it goes on. */
  lemma BranchGoesOn(env: Env, v: View, v': View, data: Data, width: nat, frontier: seq<string>, s: Scheduler,
                     i: nat, b: Branch)
    requires Stepped(env, v, v', data, width, frontier, s, i, b) && !Terminal(b)
    ensures var s' := s.(inFlight := s.inFlight[i := b]);
      && SchedInv(env, v', data, width, frontier, s') && |s'.inFlight| == |s.inFlight|
      && StartsAhead(env.graph, frontier, s') ==
        StartsAhead(env.graph, frontier, s) + StartsLeft(env.graph, b) - StartsLeft(env.graph, s.inFlight[i])
      && StepsAhead(env.graph, frontier, s') ==
        StepsAhead(env.graph, frontier, s) + StepsLeft(env.graph, b) - StepsLeft(env.graph, s.inFlight[i])
  {
    hide FamilyFrom, Remaining, LogInv, StoreOk, StartsLeft, StepsLeft, StartsAhead, StepsAhead, EventsInv, Progress,
      ResultsRight;
    Weights(env.graph, frontier, s, i, b);
    assert s.inFlight[i := b].Keys == s.inFlight.Keys;
    SteppedInv(env, v, v', data, width, frontier, s, i, b);
  }

  /** If it succeeded, it is joined. */
  lemma BranchJoins(env: Env, v: View, v': View, data: Data, width: nat, frontier: seq<string>, s: Scheduler,
                    i: nat, b: Branch)
    requires Stepped(env, v, v', data, width, frontier, s, i, b) && b.phase.Succeeded?
    ensures var s' := Join(s, i, BranchResult(b.name, b.data, b.phase.output));
      && SchedInv(env, v', data, width, frontier, s') && |s'.inFlight| == |s.inFlight| - 1
      && StartsAhead(env.graph, frontier, s') == StartsAhead(env.graph, frontier, s) - StartsLeft(env.graph, s.inFlight[i])
      && StepsAhead(env.graph, frontier, s') == StepsAhead(env.graph, frontier, s) - StepsLeft(env.graph, s.inFlight[i])
  {
    hide SchedInv, FamilyFrom, Remaining, LogInv, StoreOk, StartsLeft, StepsLeft, StartsAhead, StepsAhead;
    WeightsWithout(env.graph, frontier, s, i, Join(s, i, BranchResult(b.name, b.data, b.phase.output)));
    JoinedInv(env, v, v', data, width, frontier, s, i, b);
  }

  lemma FailureOf(env: Env, data: Data, frontier: seq<string>, i: nat, b: Branch)
    requires i < |frontier| && frontier[i] in env.graph.nodes && b.phase.Stopped?
    requires OnCourse(env, FamilyFrom(env, frontier[i], data, 0), b)
    ensures Disturbed(b) || BranchFailure(env, data, frontier, b.phase.error)
  {
    hide FamilyFrom, Remaining;
    CourseEnds(env, FamilyFrom(env, frontier[i], data, 0), b);
    assert Disturbed(b) || NodeFailure(env, data, frontier[i], b.phase.error);
  }

  /** If it failed, the superstep is given up. */
  lemma BranchFails(env: Env, v: View, v': View, data: Data, width: nat, frontier: seq<string>, s: Scheduler,
                    i: nat, b: Branch)
    requires Stepped(env, v, v', data, width, frontier, s, i, b) && b.phase.Stopped?
    ensures StepError(b.phase.error) && !b.phase.error.NodeNotFound? && (Disturbed(b) || !AllSucceed(env, data, frontier))
    ensures Disturbed(b) || BranchFailure(env, data, frontier, b.phase.error)
    ensures DrainInv(env, v', data, width, frontier, GiveUp(s, i), Open(s.inFlight[i]))
    ensures StartsAhead(env.graph, frontier, GiveUp(s, i)) ==
      StartsAhead(env.graph, frontier, s) - StartsLeft(env.graph, s.inFlight[i])
  {
    hide FamilyFrom, Remaining, LogInv, ViewOk, StartsLeft, StepsLeft, StartsAhead, StepsAhead, AllSucceed,
      FlightInv, Live, SpawnCount, Bounded, ResultsRight, BranchFailure;
    CourseEnds(env, FamilyFrom(env, frontier[i], data, 0), b);
    FailureOf(env, data, frontier, i, b);
    OneFails(env, data, frontier, i);
    WeightsWithout(env.graph, frontier, s, i, GiveUp(s, i));
    GiveUpEvents(s.events, data, width, s.p, s.inFlight.Keys, i);
    assert (s.inFlight - {i}).Keys == s.inFlight.Keys - {i};
    FlightRest(env, v, v', data, frontier, s.inFlight, i);
    var rest := OpenIn(s.inFlight - {i});
    ViewWeaken(v', rest + Open(if StoreFailed(b) then s.inFlight[i] else b), rest + Open(s.inFlight[i]));
  }

  lemma ViewWeaken(v: View, less: set<AttemptId>, more: set<AttemptId>)
    requires ViewOk(v, less) && less <= more
    ensures ViewOk(v, more)
  {
  }

  // ---- Draining ------------------------------------------------------------------------------

  lemma DrainReady(env: Env, v: View, data: Data, width: nat, frontier: seq<string>, s: Scheduler,
                   lost: set<AttemptId>, i: nat)
    requires DrainInv(env, v, data, width, frontier, s, lost) && i in s.inFlight
    ensures i < |frontier| && frontier[i] in env.graph.nodes
    ensures var b := s.inFlight[i];
      && b.name == frontier[i] && !Terminal(b) && OnCourse(env, FamilyFrom(env, frontier[i], data, 0), b)
      && LogInv(b) && AttemptKnown(v, b) && ViewOk(v, OpenIn(s.inFlight - {i}) + lost + Open(b))
  {
    hide FamilyFrom, Remaining, LogInv, Halted;
    assert BranchInv(env, v, data, frontier, i, s.inFlight[i]);
    OpenSplit(s.inFlight, i, s.inFlight[i]);
    assert OpenIn(s.inFlight) + lost == OpenIn(s.inFlight - {i}) + lost + Open(s.inFlight[i]);
  }

  /** An aborted branch leaves its attempt open. */
  lemma BranchDrained(env: Env, v: View, v': View, data: Data, width: nat, frontier: seq<string>, s: Scheduler,
                      lost: set<AttemptId>, i: nat)
    requires DrainInv(env, v, data, width, frontier, s, lost) && i in s.inFlight && i < |frontier|
    requires AttemptsStay(v.store, v'.store) && v'.run == v.run && v'.configured == v.configured
    requires ViewOk(v', OpenIn(s.inFlight - {i}) + lost + Open(s.inFlight[i]))
    ensures DrainInv(env, v', data, width, frontier, Drain(s, i), lost + Open(s.inFlight[i]))
    ensures StartsAhead(env.graph, frontier, Drain(s, i)) ==
      StartsAhead(env.graph, frontier, s) - StartsLeft(env.graph, s.inFlight[i])
    ensures StepsAhead(env.graph, frontier, Drain(s, i)) <= StepsAhead(env.graph, frontier, s)
    ensures |Drain(s, i).inFlight| == |s.inFlight| - 1
  {
    hide FamilyFrom, FlightInv, Live, SpawnCount, Bounded, Quiet, StartsLeft, StepsLeft, StartsAhead, StepsAhead, StoreOk;
    WeightsWithout(env.graph, frontier, s, i, Drain(s, i));
    DrainEvents(s.events, data, width, s.p, s.inFlight.Keys, i);
    assert (s.inFlight - {i}).Keys == s.inFlight.Keys - {i};
    FlightRest(env, v, v', data, frontier, s.inFlight, i);
    var rest, open := OpenIn(s.inFlight - {i}), Open(s.inFlight[i]);
    assert rest + lost + open == rest + (lost + open);
  }

  lemma DrainHalted(env: Env, v: View, data: Data, width: nat, frontier: seq<string>, s: Scheduler,
                    lost: set<AttemptId>)
    requires DrainInv(env, v, data, width, frontier, s, lost)
    ensures Halted(data, width, frontier, s)
  {
  }

  /** Before it gets to know, a branch may take further steps. */
  lemma BranchRunsOn(env: Env, v: View, v': View, data: Data, width: nat, frontier: seq<string>, s: Scheduler,
                     lost: set<AttemptId>, i: nat, b: Branch)
    requires DrainInv(env, v, data, width, frontier, s, lost) && i in s.inFlight
    requires BranchInv(env, v', data, frontier, i, b)
    requires AttemptsStay(v.store, v'.store) && v'.run == v.run && v'.configured == v.configured
    requires ViewOk(v', OpenIn(s.inFlight - {i}) + lost + Open(b))
    ensures var s' := s.(inFlight := s.inFlight[i := b]);
      && DrainInv(env, v', data, width, frontier, s', lost) && |s'.inFlight| == |s.inFlight|
      && StartsAhead(env.graph, frontier, s') ==
        StartsAhead(env.graph, frontier, s) + StartsLeft(env.graph, b) - StartsLeft(env.graph, s.inFlight[i])
      && StepsAhead(env.graph, frontier, s') ==
        StepsAhead(env.graph, frontier, s) + StepsLeft(env.graph, b) - StepsLeft(env.graph, s.inFlight[i])
  {
    hide FamilyFrom, LogInv, Live, SpawnCount, Bounded, Quiet, StartsLeft, StepsLeft, StartsAhead, StepsAhead, StoreOk;
    Weights(env.graph, frontier, s, i, b);
    assert s.inFlight[i := b].Keys == s.inFlight.Keys;
    assert FlightInv(env, v, data, frontier, s.inFlight - {i});
    OpenSplit(s.inFlight, i, b);
    FlightExtended(env, v, v', data, frontier, s.inFlight, i, b);
    var rest := OpenIn(s.inFlight - {i});
    assert rest + lost + Open(b) == rest + Open(b) + lost;
  }

  lemma AllLive(env: Env, v: View, data: Data, width: nat, frontier: seq<string>, s: Scheduler)
    requires SchedInv(env, v, data, width, frontier, s)
    ensures |Live(s.events)| == |s.inFlight|
  {
    assert |s.inFlight.Keys| == |s.inFlight|;
  }

  lemma GiveUpExtends(s: Scheduler, i: nat)
    ensures Extends(s.events, GiveUp(s, i).events)
  {
    assert s.events + [Broken(i)] + [AbortAll] == s.events + [Broken(i), AbortAll];
  }

  /** When nothing is pending or in flight the superstep's results are complete. */
  lemma SchedulerDone(env: Env, v: View, data: Data, width: nat, frontier: seq<string>, s: Scheduler)
    requires SchedInv(env, v, data, width, frontier, s) && s.p == |frontier| && s.inFlight == map[]
    ensures AllSucceed(env, data, frontier)
    ensures multiset(s.results) == multiset(BranchResults(env, data, frontier))
    ensures ViewOk(v, {}) && Halted(data, width, frontier, s)
  {
    AllJoined(env, data, frontier, s.joined, s.results);
    assert OpenIn(map[]) == {};
  }
}
